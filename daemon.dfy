/** The bridge object `TidalDiscordRpc`: its fields change in place tick by tick, and each method
    is proved to have the effect the matching function of `Orchestrator` describes. */
module Daemon {
  import opened Track
  import opened Payload
  import O = Orchestrator

  class TidalDiscordRpc {
    /** `connected_to_discord` */
    var connected: bool
    /** Whether `discord_rpc` holds a client object (is not None). */
    var hasClient: bool
    /** `last_track_data` */
    var lastTrack: Option<TrackRecord>
    /** The loop-local `last_discord_attempt` of `run`, kept here between ticks. */
    var lastAttempt: int
    /** The calls made into the presence client so far. */
    ghost var log: seq<O.Event>

    ghost function State(): O.BridgeState
      reads this
    {
      O.BridgeState(connected, hasClient, lastTrack, lastAttempt, log)
    }

    ghost predicate Valid()
      reads this
    {
      O.Consistent(State())
    }

    /** A fresh bridge, as `__init__` leaves it and `run` starts it (`last_discord_attempt = 0`). */
    constructor ()
      ensures State() == O.Initial() && Valid()
    {
      connected := false;
      hasClient := false;
      lastTrack := None;
      lastAttempt := 0;
      log := [];
    }

    /** `connect_discord`; `now` only stamps the attempt in the log. */
    method ConnectDiscord(ghost now: int, outcome: O.ConnectOutcome) returns (ok: bool)
      modifies this
      ensures State() == O.ConnectDiscord(old(State()), now, outcome)
      ensures ok == connected
    {
      if hasClient {
        log := log + [O.Close];
      }
      match outcome {
        case Connected =>
          hasClient := true;
          connected := true;
        case HandshakeFailed =>
          hasClient := true;
          connected := false;
        case ClientUnavailable =>
          connected := false;
      }
      log := log + [O.Connect(now, connected)];
      ok := connected;
    }

    /** `update_discord_presence`; `pushOk` is whether the client's `update` call succeeds. */
    method UpdateDiscordPresence(t: TrackRecord, now: int, pushOk: bool) returns (success: bool)
      modifies this
      ensures (State(), success) == O.UpdateDiscordPresence(old(State()), t, now, pushOk)
    {
      if !connected {
        return false;
      }
      var presence := BuildPresence(t, now);
      log := log + [O.Push(t, presence, pushOk)];
      if !pushOk {
        connected := false;
        return false;
      }
      return true;
    }

    /** `clear_discord_presence`; a failing `clear` is swallowed, so its outcome is not needed. */
    method ClearDiscordPresence()
      modifies this
      ensures State() == O.ClearDiscordPresence(old(State()))
    {
      if connected && hasClient {
        log := log + [O.Clear];
      }
    }

    /** The body of the loop in `run`, up to the sleep. */
    method Tick(input: O.TickInput)
      requires Valid()
      modifies this
      ensures Valid()
      ensures State() == O.Step(old(State()), input)
    {
      ghost var before := State();
      if !connected && input.now - lastAttempt > O.ConnectRetryInterval {
        var _ := ConnectDiscord(input.now, input.connect);
        lastAttempt := input.now;
      }
      ghost var mid := State();
      assert mid == O.Reconnect(before, input.now, input.connect);
      var track := GetCurrentTrack(input.fetched);
      if track.Some? {
        if HasTrackChanged(lastTrack, track.value) {
          if connected {
            var success := UpdateDiscordPresence(track.value, input.now, input.pushOk);
            if !success {
              connected := false;
            }
          }
          lastTrack := track;
        }
      } else {
        if lastTrack.Some? && connected {
          ClearDiscordPresence();
          lastTrack := None;
        }
      }
      assert State() == O.Present(mid, input.now, input.fetched, input.pushOk);
      assert State() == O.Step(before, input);
      O.StepKeepsConsistent(before, input);
    }

    /** The interrupt handler and the code after the loop. */
    method Shutdown()
      modifies this
      ensures State() == O.Shutdown(old(State()))
    {
      if connected {
        ClearDiscordPresence();
      }
      if hasClient {
        log := log + [O.Close];
      }
    }

    /** `run` on a fresh bridge, as the program's entry point calls it once: reset the attempt
        time, then the ticks that happen before the interrupt, one after the other, then
        shutdown. */
    method Run(ticks: seq<O.TickInput>)
      requires State() == O.Initial()
      modifies this
      ensures State() == O.Shutdown(O.Run(O.Initial(), ticks))
    {
      lastAttempt := 0;
      var k := 0;
      while k < |ticks|
        invariant 0 <= k <= |ticks|
        invariant State() == O.Run(O.Initial(), ticks[..k])
      {
        ghost var done := ticks[..k];
        O.InitialConsistent();
        O.RunKeepsConsistent(O.Initial(), done);
        O.RunSnoc(O.Initial(), done, ticks[k]);
        Tick(ticks[k]);
        assert ticks[..k + 1] == done + [ticks[k]];
        k := k + 1;
      }
      assert ticks[..|ticks|] == ticks;
      Shutdown();
    }
  }
}
