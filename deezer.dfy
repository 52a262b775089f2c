/** The Deezer track search: the hits that carry an audio preview. */
module DeezerSearchFlow {

  import opened Wrappers
  import opened Types

  /** The fields of a Deezer track the tool reads; `preview` may be absent. */
  datatype DeezerTrack = DeezerTrack(title: string, artistName: string, preview: Option<string>)

  /** How the request ended: `fetch` or `json()` threw, or the body parsed,
      with its `data` list if it has one. */
  datatype DeezerReply = Threw | Parsed(data: Option<seq<DeezerTrack>>)

  /** The preview as JavaScript sees it: absent reads as "". */
  function Preview(t: DeezerTrack): string {
    if t.preview.Some? then t.preview.value else ""
  }

  /** `track.preview` is truthy: present and not empty. */
  predicate HasPreview(t: DeezerTrack) {
    Preview(t) != ""
  }

  function AsMusicTrack(t: DeezerTrack): MusicTrack {
    MusicTrack(t.title, t.artistName, Preview(t))
  }

  /** The tracks with a preview, in reply order, as playable entries. */
  function WithPreviews(tracks: seq<DeezerTrack>): (r: seq<MusicTrack>)
    ensures |r| <= |tracks|
  {
    if tracks == [] then []
    else (if HasPreview(tracks[0]) then [AsMusicTrack(tracks[0])] else []) + WithPreviews(tracks[1..])
  }

  /** Exactly the tracks with a preview are kept: every entry comes from such
      a track and has a non-empty URL, every such track is there, and when
      all tracks have one nothing is dropped. */
  lemma {:induction false} WithPreviewsKeepsPreviews(tracks: seq<DeezerTrack>)
    ensures forall m :: m in WithPreviews(tracks) ==> m.url != "" && exists t :: t in tracks && HasPreview(t) && m == AsMusicTrack(t)
    ensures forall t :: t in tracks && HasPreview(t) ==> AsMusicTrack(t) in WithPreviews(tracks)
    ensures (forall t :: t in tracks ==> HasPreview(t)) ==> |WithPreviews(tracks)| == |tracks|
  {
    if tracks != [] {
      WithPreviewsKeepsPreviews(tracks[1..]);
      assert forall t :: t in tracks ==> t == tracks[0] || t in tracks[1..];
    }
  }

  /** Filtering keeps the order of the reply. */
  lemma {:induction false} WithPreviewsAppend(xs: seq<DeezerTrack>, ys: seq<DeezerTrack>)
    ensures WithPreviews(xs + ys) == WithPreviews(xs) + WithPreviews(ys)
  {
    if xs == [] {
      assert xs + ys == ys;
    } else {
      var zs := xs + ys;
      assert zs[0] == xs[0] && zs[1..] == xs[1..] + ys;
      WithPreviewsAppend(xs[1..], ys);
      var head := if HasPreview(xs[0]) then [AsMusicTrack(xs[0])] else [];
      assert WithPreviews(zs) == head + WithPreviews(zs[1..]);
    }
  }

  /** `searchMusicTool`: no results on an exception or a missing list;
      otherwise the tracks with a preview, whose URL is that preview. */
  function SearchMusic(reply: DeezerReply): (tracks: seq<MusicTrack>)
    ensures reply.Threw? || reply.data.None? ==> tracks == []
    ensures reply.Parsed? && reply.data.Some? ==> tracks == WithPreviews(reply.data.value)
    ensures forall m :: m in tracks ==> m.url != ""
  {
    match reply
    case Threw => []
    case Parsed(data) =>
      if data.None? || data.value == [] then []
      else
        WithPreviewsKeepsPreviews(data.value);
        WithPreviews(data.value)
  }
}
