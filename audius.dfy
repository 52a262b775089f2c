/** The Audius track search: the first five hits, each with a stream URL
    built from its track id. */
module AudiusSearchFlow {

  import opened Wrappers
  import opened Types

  /** The fields of an Audius track the tool reads. */
  datatype AudiusTrack = AudiusTrack(id: string, title: string, userName: string)

  /** How the request ended: `fetch` or `json()` threw, or the body parsed,
      with its `data` list if it has one. The HTTP status is not looked at. */
  datatype AudiusReply = Threw | Parsed(data: Option<seq<AudiusTrack>>)

  const StreamPrefix := "https://discoveryprovider.audius.co/v1/tracks/"
  const StreamSuffix := "/stream?app_name=SunriseNavigator"

  /** The stream endpoint of a track. */
  function StreamUrl(id: string): string {
    StreamPrefix + id + StreamSuffix
  }

  /** The track id can be read back off its stream URL, so different ids
      never share a URL. */
  lemma StreamUrlInjective(a: string, b: string)
    requires StreamUrl(a) == StreamUrl(b)
    ensures a == b
  {
    var p := |StreamPrefix|;
    assert |a| == |b|;
    assert StreamUrl(a)[p..p + |a|] == a;
    assert StreamUrl(b)[p..p + |b|] == b;
  }

  function AsMusicTrack(t: AudiusTrack): MusicTrack {
    MusicTrack(t.title, t.userName, StreamUrl(t.id))
  }

  /** `searchMusicTool`: no results on an exception or a missing or empty
      list; otherwise the first five tracks, in order, as playable entries. */
  function SearchMusic(reply: AudiusReply): (tracks: seq<MusicTrack>)
    ensures |tracks| <= 5
    ensures reply.Threw? || reply.data.None? ==> tracks == []
    ensures reply.Parsed? && reply.data.Some? ==>
      && |tracks| == (if |reply.data.value| < 5 then |reply.data.value| else 5)
      && forall i :: 0 <= i < |tracks| ==>
           && tracks[i].name == reply.data.value[i].title
           && tracks[i].artist == reply.data.value[i].userName
           && tracks[i].url == StreamUrl(reply.data.value[i].id)
  {
    match reply
    case Threw => []
    case Parsed(data) =>
      if data.None? || data.value == [] then []
      else
        var first := if |data.value| <= 5 then data.value else data.value[..5];
        seq(|first|, i requires 0 <= i < |first| => AsMusicTrack(first[i]))
  }

  /** Tracks with different ids come back with different URLs. */
  lemma DistinctIdsDistinctUrls(data: seq<AudiusTrack>)
    requires forall i, j :: 0 <= i < j < |data| ==> data[i].id != data[j].id
    ensures var tracks := SearchMusic(Parsed(Some(data)));
      forall i, j :: 0 <= i < j < |tracks| ==> tracks[i].url != tracks[j].url
  {
    var tracks := SearchMusic(Parsed(Some(data)));
    forall i, j | 0 <= i < j < |tracks| ensures tracks[i].url != tracks[j].url {
      if tracks[i].url == tracks[j].url {
        StreamUrlInjective(data[i].id, data[j].id);
      }
    }
  }
}
