/** The four kinds of user interaction an event can record, and their names as
    they appear in the event table and in the chart helpers' input type. */
module EventTypes {

  import opened Wrappers

  datatype EventKind = ShareTrack | LikeTrack | AddTrackToPlaylist | PlayTrack

  /** The event_type string stored for each kind. */
  function KindName(k: EventKind): string
  {
    match k
    case ShareTrack => "share_track"
    case LikeTrack => "like_track"
    case AddTrackToPlaylist => "add_track_to_playlist"
    case PlayTrack => "play_track"
  }

  /** Reads an event_type string; any other string is not one of the kinds. */
  function ParseKind(s: string): (r: Option<EventKind>)
    ensures r.Some? ==> KindName(r.value) == s
  {
    if s == "share_track" then Some(ShareTrack)
    else if s == "like_track" then Some(LikeTrack)
    else if s == "add_track_to_playlist" then Some(AddTrackToPlaylist)
    else if s == "play_track" then Some(PlayTrack)
    else None
  }

  /** Every kind's name reads back as that kind, so names are distinct. */
  lemma ParseKindName(k: EventKind)
    ensures ParseKind(KindName(k)) == Some(k)
  {
  }

  /** Position of a kind in the order the event-type query lists them
      (share, like, add to playlist, play). */
  function KindRank(k: EventKind): (r: int)
    ensures 0 <= r < 4
  {
    match k
    case ShareTrack => 0
    case LikeTrack => 1
    case AddTrackToPlaylist => 2
    case PlayTrack => 3
  }

  function KindOfRank(r: int): (k: EventKind)
    requires 0 <= r < 4
    ensures KindRank(k) == r
  {
    if r == 0 then ShareTrack
    else if r == 1 then LikeTrack
    else if r == 2 then AddTrackToPlaylist
    else PlayTrack
  }

  lemma KindOfRankInverse(k: EventKind)
    ensures KindOfRank(KindRank(k)) == k
  {
  }

}
