# Tidal Hi-Fi to Discord Rich Presence bridge, modelled in Dafny

`tidal-discord-rpc.py` is a background process. Every 15 seconds it asks the local Tidal Hi-Fi
player what is playing (`GET /current`) and mirrors that track into Discord Rich Presence. It
reconnects to Discord at most once every 30 seconds while disconnected. It pushes a new presence
only when the track's title, artists, status or source changes. It clears the presence when
nothing plays any more.

This project models that core:

- `track.dfy`, module `Track`: the parsed status record. Every field is optional, so an absent
  key and an empty string stay distinct. The module also holds the filter of
  `get_current_track` and the change test of `has_track_changed`.
- `time_format.dfy`, module `TimeFormat`: `format_time`, including Python's decimal rendering
  and `02d` padding. A parser reads the rendering back.
- `payload.dfy`, module `Payload`: the presence record that `update_discord_presence` builds.
  It holds the text fields, the image choice and the optional start/end timestamps.
- `orchestrator.dfy`, module `Orchestrator`: the loop of `run` as a function on a value
  `BridgeState`. The state holds the connection flag, whether a client object exists, the last
  track seen, the last connection attempt, and a log of the calls made into the Discord client
  (`Connect`, `Close`, `Push`, `Clear`). The lemmas about whole runs are stated over that log.
- `daemon.dfy`, module `Daemon`: the class `TidalDiscordRpc`. Its fields change in place.
  Each method is proved to have exactly the effect of the matching `Orchestrator` function.
  `Tick` also keeps the invariant `Orchestrator.Consistent`.

The outside world enters as parameters. Per tick these are the clock (`now`, whole seconds) and
the parsed record (`None` when the request or the JSON decoding failed). They also include the
outcome of a connect attempt (`Connected`, `HandshakeFailed`, `ClientUnavailable`) and whether
a push succeeds.

Two behaviours of the code are kept as they are. First, the last track seen is not a record
of what was delivered: it advances to a new song even when the push fails, and the failed push
only marks the bridge disconnected. Second, a reconnect does not reset it. So after a failed
push the song is not re-sent on the new session. It is sent again only once the change key of
the fetched track changes, or after a tick with no track on a live session has cleared the last
track seen (`Orchestrator.NoResendAfterReconnect`).

## Model

| member | source | states |
|---|---|---|
| `Track.GetCurrentTrack` | tidal-discord-rpc.py:53-56 | a record is returned exactly when both title and artists are present and non-empty, and then unchanged; anything else, including a failed fetch, is "no track" |
| `Track.GetCurrentTrackIdempotent` | tidal-discord-rpc.py:53-56 | filtering an already filtered result changes nothing |
| `Track.HasTrackChanged` | tidal-discord-rpc.py:135-153 | true whenever there is no previous track; otherwise true iff title, artists, status or playingFrom differ |
| `Track.ProgressIsNotAChange` | tidal-discord-rpc.py:139-153 | records that differ only in position, duration or album never count as changed |
| `Track.AbsentDiffersFromEmpty` | tidal-discord-rpc.py:139-143 | a field read with `.get()` that is absent differs from one that is empty, so gaining an empty `playingFrom` is a change |
| `TimeFormat.NatToDecimal` | tidal-discord-rpc.py:68 | Python's rendering of a non-negative integer: digits only, no leading zero, one digit exactly below 10, and it denotes the number |
| `TimeFormat.IntToDecimal` | tidal-discord-rpc.py:68 | a non-negative integer renders as its decimal digits, a negative one as "-" followed by the digits of its magnitude; the rendering parses back to the integer |
| `TimeFormat.ZeroPad2` | tidal-discord-rpc.py:68 | `02d` padding of a number below 100 gives exactly two digits that denote it |
| `TimeFormat.FormatTime` | tidal-discord-rpc.py:65-68 | the result is `m:ss`: everything before the colon is the rendering of `seconds // 60` (floor division, so negative arguments give a negative `m`), and `ss` is two digits denoting `seconds % 60` |
| `TimeFormat.FormatTimeRoundTrip` | tidal-discord-rpc.py:65-68 | reading `m:ss` back as `m * 60 + ss` gives the argument, for every integer |
| `TimeFormat.FormatTimeExamples` | tidal-discord-rpc.py:65-68 | 200 seconds render as `3:20`, 5 seconds as `0:05` |
| `Payload.BuildPresence` | tidal-discord-rpc.py:75-110 | details is the title; state is "by" and the artists, with " • album" iff the album is non-empty; large text is "Tidal Hi-Fi", with " • playingFrom" iff that is non-empty; play/Playing iff status is "playing", else pause/Paused; timestamps exist iff playing with a positive duration, then start is now minus elapsed and end minus start is the duration |
| `Payload.PlayingMeansReportedPlaying` | tidal-discord-rpc.py:78 | the playing test holds iff the status field is present and equal to "playing"; the default "unknown" never passes |
| `Payload.ProgressBarCoversNow` | tidal-discord-rpc.py:104-110 | while playing at a position within the duration, the progress bar runs from before `now` to after it |
| `Payload.AlbumShownIffPresent` | tidal-discord-rpc.py:98-99 | the state line is just "by artists" iff the album is absent or empty |
| `Payload.UnchangedKeySameHeadline` | tidal-discord-rpc.py:84-102 | for two records that are not a change, the payloads agree on details, large text and the play/pause pair; the second payload's state line is "by" and the first record's artists followed by the second's own album part, and the large images agree; so a suppressed push withholds only the album part and the progress bar |
| `Payload.ProgressExample` | tidal-discord-rpc.py:104-110 | a song 10 s into 200 s, pushed at `now`, shows a bar from `now - 10` to `now + 190` |
| `Orchestrator.ConnectDiscord` | tidal-discord-rpc.py:30-44 | the log gains a close iff a client object existed, then one connect attempt stamped `now`; the bridge is connected iff the outcome is `Connected`; a client object exists afterwards unless making it failed; the last track, the attempt time and the pushes are untouched |
| `Orchestrator.Reconnect` | tidal-discord-rpc.py:162-164 | an attempt is made iff disconnected and more than 30 s have passed since the last one: then the log gains a close iff a client object existed and then one connect stamped `now`, the attempt time becomes `now`, the connection flag is the outcome and a client object exists unless making it failed; otherwise the state is unchanged; no push either way |
| `Orchestrator.UpdateDiscordPresence` | tidal-discord-rpc.py:70-125 | reports success iff connected and the push succeeds; while disconnected nothing changes; while connected exactly one push of `BuildPresence(t, now)` is logged and the connection flag becomes the push outcome |
| `Orchestrator.ClearDiscordPresence` | tidal-discord-rpc.py:127-133 | logs one clear iff connected with a client object; nothing else changes |
| `Orchestrator.Present` | tidal-discord-rpc.py:165-178 | acting on a fetch never connects, never attempts a connect and adds at most one push; after a fetched track the last track seen has its key; with no track the last track is kept or forgotten (specified case by case by `ChangedTrackTick`, `UnchangedTrackTick`, `NoTrackTick`) |
| `Orchestrator.Step` | tidal-discord-rpc.py:160-180 | one tick adds exactly one attempt time `now` iff the reconnect test holds, and at most one push |
| `Orchestrator.Run` | tidal-discord-rpc.py:159-180 | a run only appends to the log, adds at most one push and at most one connect attempt per tick |
| `Orchestrator.Shutdown` | tidal-discord-rpc.py:182-192 | the log gains a clear iff connected with a client object, then a close iff a client object exists; nothing else changes |
| `Orchestrator.ReconnectKeepsConsistent` | tidal-discord-rpc.py:162-164 | the reconnect step keeps the loop invariant and leaves the last track and the pushes alone; the attempt is stamped whether or not it succeeds |
| `Orchestrator.PresentKeepsConsistent` | tidal-discord-rpc.py:165-178 | acting on a fetch keeps the loop invariant: a push or clear only on a live session, connection flag equal to liveness, only tracks remembered |
| `Orchestrator.StepKeepsConsistent` | tidal-discord-rpc.py:160-180 | one whole tick keeps the loop invariant |
| `Orchestrator.LogGrows` | tidal-discord-rpc.py:160-180 | a tick only appends to the log of calls |
| `Orchestrator.PresentLogGrows` | tidal-discord-rpc.py:165-178 | acting on a fetch only appends to the log of calls |
| `Orchestrator.RunSnoc` | tidal-discord-rpc.py:159-180 | a run of one more tick is the shorter run followed by that tick |
| `Orchestrator.InitialConsistent` | tidal-discord-rpc.py:18-21 | the fresh bridge satisfies the loop invariant |
| `Orchestrator.RunKeepsConsistent` | tidal-discord-rpc.py:159-180 | any number of ticks keep the loop invariant |
| `Orchestrator.ConnectAttemptsThrottled` | tidal-discord-rpc.py:162-164 | from start-up, any two connection attempts are more than 30 s apart, whatever the clock does, so no 30-second window holds two |
| `Orchestrator.PresenceOnlyWhileLive` | tidal-discord-rpc.py:169-177 | from start-up, every push and every clear is made while the last connect succeeded and no push has failed since |
| `Orchestrator.StepRemembersKey` | tidal-discord-rpc.py:167-174 | after a tick that fetched a track, the last track seen has that track's key; the tick adds at most one push, and none if the key was already the last one |
| `Orchestrator.SameSongNoPush` | tidal-discord-rpc.py:167-174 | once a song is the last track seen, further fetches of it push nothing, however far playback advances |
| `Orchestrator.SameSongPushesAtMostOnce` | tidal-discord-rpc.py:167-174 | consecutive fetches of one song push at most once in total |
| `Orchestrator.ChangedTrackTick` | tidal-discord-rpc.py:168-174 | for a changed track, the whole state after the tick: if connected after the reconnect step, one push of its payload is logged, the connection flag becomes the push outcome and the last track seen becomes it; if not connected, only the last track seen changes, to it |
| `Orchestrator.UnchangedTrackTick` | tidal-discord-rpc.py:167-168 | an unchanged track leaves everything as the reconnect step left it |
| `Orchestrator.NoTrackTick` | tidal-discord-rpc.py:175-178 | with no track, clear and forget the last track iff one was seen and the bridge is connected; otherwise nothing changes |
| `Orchestrator.ShutdownCalls` | tidal-discord-rpc.py:182-192 | shutdown clears iff connected and then closes iff a client object exists |
| `Orchestrator.FirstTickExample` | tidal-discord-rpc.py:157-174 | at start-up past the cooldown, a playing song leads to one connect and one push whose bar runs from `now - 10` to `now + 190` |
| `Orchestrator.NoResendAfterReconnect` | tidal-discord-rpc.py:162-174 | after a failed push of a new song, the tick that reconnects and fetches the same song pushes nothing |
| `Daemon.TidalDiscordRpc.constructor` | tidal-discord-rpc.py:18-21 | a fresh bridge is disconnected, has no client, no last track, last attempt 0 and an empty log |
| `Daemon.TidalDiscordRpc.ConnectDiscord` | tidal-discord-rpc.py:30-44 | closes an existing client first; the new state is connected only on a successful connect; a client object exists after any attempt that got past making it |
| `Daemon.TidalDiscordRpc.UpdateDiscordPresence` | tidal-discord-rpc.py:70-125 | refuses while disconnected; otherwise sends the payload of `BuildPresence`, and a failed send disconnects |
| `Daemon.TidalDiscordRpc.ClearDiscordPresence` | tidal-discord-rpc.py:127-133 | calls the client's clear only while connected with a client; changes no state |
| `Daemon.TidalDiscordRpc.Tick` | tidal-discord-rpc.py:160-180 | one loop iteration has the effect of `Orchestrator.Step` and keeps the loop invariant |
| `Daemon.TidalDiscordRpc.Shutdown` | tidal-discord-rpc.py:182-192 | clears if connected, then closes the client if one exists |
| `Daemon.TidalDiscordRpc.Run` | tidal-discord-rpc.py:155-192 | on a fresh bridge, with the attempt time reset to 0 as at line 157, the ticks before an interrupt and then shutdown have the effect of `Orchestrator.Run` from `Orchestrator.Initial` followed by `Orchestrator.Shutdown` |

## Left out

- The HTTP request, `raise_for_status` and JSON decoding (tidal-discord-rpc.py:48-51, 58-63) are
  I/O and a foreign library. A failed request or decode is the input `None`.
- The pypresence client is a foreign library. Each call is a supplied outcome and an entry in
  the log. The client's `update` arguments are the `Presence` record.
- Field types: JSON values other than strings (for text fields) and integers (for the two
  second counts) are not modelled. A JSON `null` is treated like an absent key. In the source
  it is passed on as `None`. On a playing track, a `null` duration makes `None > 0` raise
  (tidal-discord-rpc.py:103), and a `null` position with a positive duration makes
  `current_time - None` raise (106). In both cases `update` is never called and the handler at
  120-125 marks the bridge disconnected; the model instead logs a `Push` with the supplied
  outcome.
- `time.time()` is a float and the source truncates `start` and `end` with `int()`. The model
  uses whole seconds throughout, so the 30-second comparison and the timestamps are exact
  integer arithmetic.
- `update_discord_presence` reads the clock again. The model uses the tick's `now` for both
  the reconnect test and the timestamps.
- `time.sleep` and the 15-second interval pacing are left out. A tick is one call of `Tick`
  with `now` supplied.
- Logging is left out. This includes the `time_info` text at tidal-discord-rpc.py:114-118, the
  only place `format_time` is used.
- The generic `except Exception` recovery (tidal-discord-rpc.py:187-189) is left out. It is
  reachable: a body that is valid JSON but not an object (`null`, a list) makes `data.get` at
  line 53 raise, `get_current_track` does not catch that (58-63), and the tick then ends before
  the clear at 176-178. The model's input is a parsed record or `None`, so it cannot express
  such a body; every fetch failure it can express is the `None` path.
- The handler of the nested image `try` (88-96) is left out: updating a plain dict with
  constant strings does not raise, so the model always sets the four image fields.
- The interrupt is modelled as arriving between ticks. `Run` takes the finite sequence of ticks
  that happen before it. An interrupt in the middle of a tick is not modelled.
- `Track.HasTrackChanged`: the source tests `not self.last_track_data`, which is also true of an
  empty dict. The model tests only for absence. Only records that passed `get_current_track`
  are ever stored, and these are never empty; `Orchestrator.Consistent` keeps this as an
  invariant.
