/** The status record reported by the player, and the two decisions the bridge takes on it:
    whether a record describes a track at all, and whether it differs from the last one seen. */
module Track {

  datatype Option<+T> = None | Some(value: T) {
    /** The value, or `default` when absent (Python's `dict.get(key, default)`). */
    function GetOr(default: T): T {
      if Some? then value else default
    }
  }

  /** Python truthiness of an optional string field: present and non-empty. */
  predicate Truthy(field: Option<string>) {
    field.Some? && field.value != ""
  }

  /** One parsed status record. A field is `None` when its key is absent from the JSON object,
      so an absent field and an empty string stay distinct. */
  datatype TrackRecord = TrackRecord(
    title: Option<string>,
    artists: Option<string>,
    album: Option<string>,
    status: Option<string>,
    currentInSeconds: Option<int>,
    durationInSeconds: Option<int>,
    playingFrom: Option<string>)

  /** A record describes a track when both title and artists are present and non-empty. */
  predicate IsTrack(r: TrackRecord) {
    Truthy(r.title) && Truthy(r.artists)
  }

  /** The filter at the end of `get_current_track`. `parsed` is `None` when the request or the
      JSON decoding failed; any record that is not a track also means "nothing playing". */
  function GetCurrentTrack(parsed: Option<TrackRecord>): (track: Option<TrackRecord>)
    ensures track.Some? <==> parsed.Some? && IsTrack(parsed.value)
    ensures track.Some? ==> track == parsed
  {
    match parsed
    case None => None
    case Some(data) =>
      if Truthy(data.title) && Truthy(data.artists) then Some(data) else None
  }

  /** Filtering twice is filtering once. */
  lemma GetCurrentTrackIdempotent(parsed: Option<TrackRecord>)
    ensures GetCurrentTrack(GetCurrentTrack(parsed)) == GetCurrentTrack(parsed)
  {
  }

  /** The fields that decide whether the presence must be refreshed. Playback position,
      duration and album are deliberately not part of it. */
  datatype ChangeKey = ChangeKey(
    title: Option<string>,
    artists: Option<string>,
    status: Option<string>,
    playingFrom: Option<string>)

  function Key(r: TrackRecord): ChangeKey {
    ChangeKey(r.title, r.artists, r.status, r.playingFrom)
  }

  /** `has_track_changed`: a record is new when nothing was seen before, or when its key
      differs from the key of the last record seen. */
  function HasTrackChanged(last: Option<TrackRecord>, current: TrackRecord): (changed: bool)
    ensures last.None? ==> changed
    ensures last.Some? ==>
      (changed <==> last.value.title != current.title || last.value.artists != current.artists
                    || last.value.status != current.status || last.value.playingFrom != current.playingFrom)
  {
    last.None? || Key(last.value) != Key(current)
  }

  /** Records that differ only in position, duration or album are never a change. */
  lemma ProgressIsNotAChange(a: TrackRecord, b: TrackRecord)
    requires a.title == b.title && a.artists == b.artists
    requires a.status == b.status && a.playingFrom == b.playingFrom
    ensures !HasTrackChanged(Some(a), b)
  {
  }

  /** An absent field and an empty one are different: a record that gains an empty
      `playingFrom` counts as changed. */
  lemma AbsentDiffersFromEmpty(a: TrackRecord)
    requires a.playingFrom.None?
    ensures HasTrackChanged(Some(a), a.(playingFrom := Some("")))
  {
  }
}
