/** The rich-presence record that `update_discord_presence` builds from a track record. */
module Payload {
  import opened Track

  const LargeImage := "tidal_logo"
  const Brand := "Tidal Hi-Fi"
  /** The separator " • " the source puts between two pieces of text. */
  const Bullet := " \U{2022} "

  /** Wall-clock start and end of the progress bar, in whole seconds. */
  datatype Timestamps = Timestamps(start: int, end: int)

  datatype Presence = Presence(
    details: string,
    state: string,
    largeImage: string,
    largeText: string,
    smallImage: string,
    smallText: string,
    timestamps: Option<Timestamps>)

  /** The fields as the source reads them, with the defaults it gives to absent keys. */
  function Title(t: TrackRecord): string { t.title.GetOr("Unknown Track") }
  function Artists(t: TrackRecord): string { t.artists.GetOr("Unknown Artist") }
  function Elapsed(t: TrackRecord): int { t.currentInSeconds.GetOr(0) }
  function Duration(t: TrackRecord): int { t.durationInSeconds.GetOr(0) }
  predicate IsPlaying(t: TrackRecord) { t.status.GetOr("unknown") == "playing" }

  /** The payload for `t` when pushed at wall-clock second `now`. */
  function BuildPresence(t: TrackRecord, now: int): (p: Presence)
    ensures p.details == Title(t)
    ensures p.state == "by " + Artists(t) + (if Truthy(t.album) then Bullet + t.album.value else "")
    ensures p.largeImage == LargeImage
    ensures p.largeText == Brand + (if Truthy(t.playingFrom) then Bullet + t.playingFrom.value else "")
    ensures IsPlaying(t) ==> p.smallImage == "play" && p.smallText == "Playing"
    ensures !IsPlaying(t) ==> p.smallImage == "pause" && p.smallText == "Paused"
    ensures p.timestamps.Some? <==> IsPlaying(t) && Duration(t) > 0
    ensures p.timestamps.Some? ==>
      p.timestamps.value.start == now - Elapsed(t) &&
      p.timestamps.value.end - p.timestamps.value.start == Duration(t)
  {
    var playing := t.status.GetOr("unknown") == "playing";
    var album := t.album.GetOr("");
    var playingFrom := t.playingFrom.GetOr("");
    var state := if album != "" then "by " + Artists(t) + Bullet + album else "by " + Artists(t);
    var largeText := if playingFrom != "" then Brand + Bullet + playingFrom else Brand;
    var stamps :=
      if playing && Duration(t) > 0 then
        var start := now - Elapsed(t);
        Some(Timestamps(start, start + Duration(t)))
      else None;
    Presence(Title(t), state, LargeImage, largeText,
             if playing then "play" else "pause",
             if playing then "Playing" else "Paused",
             stamps)
  }

  /** `status == "playing"` holds exactly when the field is present and equal to "playing":
      the default "unknown" never passes for it. */
  lemma PlayingMeansReportedPlaying(t: TrackRecord)
    ensures IsPlaying(t) <==> t.status == Some("playing")
  {
  }

  /** While a track plays at a position within its length, the progress bar contains `now`. */
  lemma ProgressBarCoversNow(t: TrackRecord, now: int)
    requires IsPlaying(t) && 0 <= Elapsed(t) <= Duration(t) && Duration(t) > 0
    ensures var p := BuildPresence(t, now);
      p.timestamps.Some? && p.timestamps.value.start <= now <= p.timestamps.value.end
  {
  }

  /** The album is shown exactly when it is present and non-empty. */
  lemma AlbumShownIffPresent(t: TrackRecord, now: int)
    ensures BuildPresence(t, now).state == "by " + Artists(t) <==> !Truthy(t.album)
  {
    var p := BuildPresence(t, now);
    if Truthy(t.album) {
      assert |p.state| > |"by " + Artists(t)|;
    }
  }

  /** A track ten seconds into a 200-second song, pushed at `now`, shows a bar running from
      `now - 10` to `now + 190`. */
  lemma ProgressExample(now: int)
    ensures var t := TrackRecord(Some("Song A"), Some("Artist X"), None, Some("playing"),
                                 Some(10), Some(200), None);
      BuildPresence(t, now).timestamps == Some(Timestamps(now - 10, now + 190)) &&
      BuildPresence(t, now).state == "by Artist X" &&
      BuildPresence(t, now).largeText == "Tidal Hi-Fi"
  {
  }

  /** What a suppressed push withholds: for two records that are not a change, the payloads
      agree on everything but the album part of the state line and the progress bar. */
  lemma UnchangedKeySameHeadline(a: TrackRecord, b: TrackRecord, nowA: int, nowB: int)
    requires !HasTrackChanged(Some(a), b)
    ensures var p, q := BuildPresence(a, nowA), BuildPresence(b, nowB);
      p.details == q.details && p.largeText == q.largeText &&
      p.smallImage == q.smallImage && p.smallText == q.smallText
    ensures BuildPresence(b, nowB).state ==
      "by " + Artists(a) + (if Truthy(b.album) then Bullet + b.album.value else "")
    ensures BuildPresence(a, nowA).largeImage == BuildPresence(b, nowB).largeImage
  {
  }
}
