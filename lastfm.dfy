/** The Last.fm track search: a key check that is not caught, then the
    track list copied entry by entry. */
module LastFmSearchFlow {

  import opened Wrappers
  import opened Types

  datatype LastFmTrack = LastFmTrack(name: string, artist: string, url: string)

  /** A parsed Last.fm body: whether its `error` field is truthy, and
      `results.trackmatches.track` if every step of that path is present. */
  datatype LastFmBody = LastFmBody(hasError: bool, tracks: Option<seq<LastFmTrack>>)

  /** How the request ended: `fetch` or `json()` threw, or the body parsed. */
  datatype LastFmReply = Threw | Parsed(body: LastFmBody)

  const MissingKey := "LASTFM_API_KEY is not defined in the environment."

  /** `searchMusicTool`: rejects when the key is unset; otherwise no results
      on an exception, an error or a missing list, and else every track of
      the list in order with its name, artist and URL. */
  function SearchMusic(apiKey: string, reply: LastFmReply): (r: Result<seq<MusicTrack>>)
    ensures r.Failure? <==> apiKey == ""
    ensures r.Failure? ==> r.message == MissingKey
    ensures apiKey != "" && (reply.Threw? || reply.body.hasError || reply.body.tracks.None?) ==> r == Success([])
    ensures apiKey != "" && reply.Parsed? && !reply.body.hasError && reply.body.tracks.Some? ==>
      var list := reply.body.tracks.value;
      && |r.value| == |list|
      && forall i :: 0 <= i < |list| ==> r.value[i] == MusicTrack(list[i].name, list[i].artist, list[i].url)
  {
    if apiKey == "" then Failure(MissingKey)
    else match reply
      case Threw => Success([])
      case Parsed(body) =>
        if body.hasError || body.tracks.None? then Success([])
        else
          var list := body.tracks.value;
          Success(seq(|list|, i requires 0 <= i < |list| => MusicTrack(list[i].name, list[i].artist, list[i].url)))
  }

  /** Nothing is lost: the reply's track list can be read back off the result. */
  lemma TracksRecoverable(apiKey: string, list: seq<LastFmTrack>)
    requires apiKey != ""
    ensures var r := SearchMusic(apiKey, Parsed(LastFmBody(false, Some(list))));
      r.Success? && seq(|r.value|, i requires 0 <= i < |r.value| => LastFmTrack(r.value[i].name, r.value[i].artist, r.value[i].url)) == list
  {
  }
}
