/** The per-tick state machine of `run`, on values: the bridge's state, the effect of one tick
    on it, and what the log of calls into the presence client shows about whole runs. */
module Orchestrator {
  import opened Track
  import opened Payload

  /** Minimum time in seconds between two connection attempts. */
  const ConnectRetryInterval := 30

  /** How a call of `connect_discord` ends. `HandshakeFailed`: a new client object was made and
      its `connect()` raised. `ClientUnavailable`: closing the old client or making the new one
      raised, so the client field keeps its old value. */
  datatype ConnectOutcome = Connected | HandshakeFailed | ClientUnavailable

  /** A call into the presence client. */
  datatype Event =
    | Connect(at: int, ok: bool)
    | Close
    | Push(track: TrackRecord, payload: Presence, delivered: bool)
    | Clear

  /** What the outside world supplies to one tick: the clock, the fetch result (None when the
      request or decoding failed), and the outcomes of the presence calls the tick may make. */
  datatype TickInput = TickInput(now: int, fetched: Option<TrackRecord>, connect: ConnectOutcome, pushOk: bool)

  /** `connected_to_discord`, whether `discord_rpc` holds a client, `last_track_data`, the loop's
      `last_discord_attempt`, and the calls made so far. */
  datatype BridgeState = BridgeState(
    connected: bool,
    hasClient: bool,
    lastTrack: Option<TrackRecord>,
    lastAttempt: int,
    log: seq<Event>)

  function Initial(): BridgeState {
    BridgeState(false, false, None, 0, [])
  }

  /** `connect_discord`: close any old client, then make and connect a new one. The result is
      connected only on success, and the attempt is one more entry in the attempt times. */
  function ConnectDiscord(s: BridgeState, now: int, outcome: ConnectOutcome): (r: BridgeState)
    ensures r.log == s.log + (if s.hasClient then [Close] else []) + [Connect(now, outcome.Connected?)]
    ensures AttemptTimes(r.log) == AttemptTimes(s.log) + [now]
    ensures PushCount(r.log) == PushCount(s.log)
    ensures r.connected == outcome.Connected?
    ensures r.hasClient == (s.hasClient || !outcome.ClientUnavailable?)
    ensures r.lastTrack == s.lastTrack && r.lastAttempt == s.lastAttempt
  {
    var closed := if s.hasClient then s.log + [Close] else s.log;
    var ok := outcome.Connected?;
    assert closed == s.log + (if s.hasClient then [Close] else []);
    AttemptTimesSnoc(s.log, Close);
    PushCountSnoc(s.log, Close);
    AttemptTimesSnoc(closed, Connect(now, ok));
    PushCountSnoc(closed, Connect(now, ok));
    match outcome
    case Connected => s.(connected := true, hasClient := true, log := closed + [Connect(now, true)])
    case HandshakeFailed => s.(connected := false, hasClient := true, log := closed + [Connect(now, false)])
    case ClientUnavailable => s.(connected := false, log := closed + [Connect(now, false)])
  }

  /** The reconnect policy: only while disconnected, and only once the cooldown has passed. */
  predicate ShouldConnect(s: BridgeState, now: int) {
    !s.connected && now - s.lastAttempt > ConnectRetryInterval
  }

  /** First step of a tick: connect exactly when disconnected and the cooldown has passed, and
      then remember the attempt whatever its outcome; otherwise change nothing. */
  function Reconnect(s: BridgeState, now: int, outcome: ConnectOutcome): (r: BridgeState)
    ensures AttemptTimes(r.log) == AttemptTimes(s.log) +
      (if !s.connected && now - s.lastAttempt > ConnectRetryInterval then [now] else [])
    ensures !s.connected && now - s.lastAttempt > ConnectRetryInterval ==>
      r.lastAttempt == now && r.connected == outcome.Connected? && r.lastTrack == s.lastTrack
    ensures !s.connected && now - s.lastAttempt > ConnectRetryInterval ==>
      r.hasClient == (s.hasClient || !outcome.ClientUnavailable?) &&
      r.log == s.log + (if s.hasClient then [Close] else []) + [Connect(now, outcome.Connected?)]
    ensures !(!s.connected && now - s.lastAttempt > ConnectRetryInterval) ==> r == s
    ensures PushCount(r.log) == PushCount(s.log)
  {
    assert AttemptTimes(s.log) + [] == AttemptTimes(s.log);
    if ShouldConnect(s, now) then ConnectDiscord(s, now, outcome).(lastAttempt := now) else s
  }

  /** `update_discord_presence`: refuses while disconnected; otherwise sends the payload for
      `t`, reports whether it got through, and disconnects when it did not. */
  function UpdateDiscordPresence(s: BridgeState, t: TrackRecord, now: int, pushOk: bool): (r: (BridgeState, bool))
    ensures r.1 == (s.connected && pushOk)
    ensures !s.connected ==> r.0 == s
    ensures s.connected ==>
      r.0 == s.(connected := pushOk, log := s.log + [Push(t, BuildPresence(t, now), pushOk)])
    ensures PushCount(r.0.log) == PushCount(s.log) + (if s.connected then 1 else 0)
    ensures AttemptTimes(r.0.log) == AttemptTimes(s.log)
  {
    var e := Push(t, BuildPresence(t, now), pushOk);
    PushCountSnoc(s.log, e);
    AttemptTimesSnoc(s.log, e);
    if !s.connected then (s, false)
    else (s.(connected := pushOk, log := s.log + [e]), pushOk)
  }

  /** `clear_discord_presence`: calls the client only while connected with a client; failures
      are swallowed, so no field but the log changes. */
  function ClearDiscordPresence(s: BridgeState): (r: BridgeState)
    ensures r == s.(log := s.log + (if s.connected && s.hasClient then [Clear] else []))
    ensures PushCount(r.log) == PushCount(s.log) && AttemptTimes(r.log) == AttemptTimes(s.log)
  {
    PushCountSnoc(s.log, Clear);
    AttemptTimesSnoc(s.log, Clear);
    assert s.log + [] == s.log;
    if s.connected && s.hasClient then s.(log := s.log + [Clear]) else s
  }

  /** Second step of a tick: act on the fetched record. It never connects, never touches the
      client or the attempt time, makes at most one push, and leaves a fetched track's key as
      the last one seen. */
  function Present(s: BridgeState, now: int, fetched: Option<TrackRecord>, pushOk: bool): (r: BridgeState)
    ensures r.connected ==> s.connected
    ensures r.hasClient == s.hasClient && r.lastAttempt == s.lastAttempt
    ensures AttemptTimes(r.log) == AttemptTimes(s.log)
    ensures PushCount(s.log) <= PushCount(r.log) <= PushCount(s.log) + 1
    ensures GetCurrentTrack(fetched).Some? ==>
      r.lastTrack.Some? && Key(r.lastTrack.value) == Key(fetched.value)
    ensures GetCurrentTrack(fetched).None? ==> r.lastTrack == s.lastTrack || r.lastTrack.None?
  {
    match GetCurrentTrack(fetched)
    case Some(t) =>
      if HasTrackChanged(s.lastTrack, t) then
        var pushed :=
          if s.connected then
            var (u, success) := UpdateDiscordPresence(s, t, now, pushOk);
            if !success then u.(connected := false) else u
          else s;
        pushed.(lastTrack := Some(t))
      else s
    case None =>
      if s.lastTrack.Some? && s.connected then ClearDiscordPresence(s).(lastTrack := None) else s
  }

  /** One iteration of the loop in `run`: at most one connection attempt, made only when the
      policy allows it, and at most one push. */
  function Step(s: BridgeState, i: TickInput): (r: BridgeState)
    ensures AttemptTimes(r.log) == AttemptTimes(s.log) + (if ShouldConnect(s, i.now) then [i.now] else [])
    ensures PushCount(s.log) <= PushCount(r.log) <= PushCount(s.log) + 1
  {
    Present(Reconnect(s, i.now, i.connect), i.now, i.fetched, i.pushOk)
  }

  /** A sequence of iterations. Calls once made stay made: the log only grows, and there are
      never more pushes or connection attempts than ticks. */
  function Run(s: BridgeState, ins: seq<TickInput>): (r: BridgeState)
    ensures |s.log| <= |r.log| && r.log[..|s.log|] == s.log
    ensures PushCount(r.log) <= PushCount(s.log) + |ins|
    ensures |AttemptTimes(r.log)| <= |AttemptTimes(s.log)| + |ins|
    decreases |ins|
  {
    if ins == [] then s
    else
      var m := Step(s, ins[0]);
      LogGrows(s, ins[0]);
      var r := Run(m, ins[1..]);
      assert r.log[..|s.log|] == r.log[..|m.log|][..|s.log|];
      r
  }

  /** The interrupt handler and what follows the loop: clear while connected, then close any
      client; nothing but the log changes. */
  function Shutdown(s: BridgeState): (r: BridgeState)
    ensures r == s.(log := s.log + (if s.connected && s.hasClient then [Clear] else [])
                                 + (if s.hasClient then [Close] else []))
  {
    var cleared := if s.connected then ClearDiscordPresence(s) else s;
    assert s.log + [] == s.log;
    if cleared.hasClient then cleared.(log := cleared.log + [Close]) else cleared
  }

  // ----- Reading the log -----

  /** Whether the session is live after the calls in `log`: the last connect succeeded and no
      push has failed since. */
  ghost function Live(log: seq<Event>): bool {
    if log == [] then false
    else match log[|log| - 1]
      case Connect(_, ok) => ok
      case Push(_, _, delivered) => delivered && Live(log[..|log| - 1])
      case _ => Live(log[..|log| - 1])
  }

  /** Every push and every clear in `log` happens on a live session. */
  ghost predicate Guarded(log: seq<Event>) {
    log == [] ||
    (Guarded(log[..|log| - 1]) &&
     (log[|log| - 1].Push? || log[|log| - 1].Clear? ==> Live(log[..|log| - 1])))
  }

  /** The times of the connection attempts in `log`, in order. */
  function AttemptTimes(log: seq<Event>): seq<int> {
    if log == [] then []
    else AttemptTimes(log[..|log| - 1]) + (if log[|log| - 1].Connect? then [log[|log| - 1].at] else [])
  }

  /** Number of pushes in `log`. */
  function PushCount(log: seq<Event>): nat {
    if log == [] then 0
    else PushCount(log[..|log| - 1]) + (if log[|log| - 1].Push? then 1 else 0)
  }

  /** Each attempt time lies more than the cooldown after the one before it. */
  predicate Spaced(ts: seq<int>) {
    |ts| <= 1 || (Spaced(ts[..|ts| - 1]) && ts[|ts| - 1] - ts[|ts| - 2] > ConnectRetryInterval)
  }

  /** The invariant the loop keeps. */
  ghost predicate Consistent(s: BridgeState) {
    (s.connected ==> s.hasClient) &&
    s.connected == Live(s.log) &&
    Guarded(s.log) &&
    (s.lastTrack.Some? ==> IsTrack(s.lastTrack.value)) &&
    Spaced(AttemptTimes(s.log)) &&
    (AttemptTimes(s.log) != [] ==> AttemptTimes(s.log)[|AttemptTimes(s.log)| - 1] == s.lastAttempt)
  }

  // ----- Lemmas -----

  lemma Snoc(log: seq<Event>, e: Event)
    ensures (log + [e])[..|log|] == log && (log + [e])[|log|] == e
  {
  }

  /** Appending an event that is not a connect leaves the attempt times alone; appending a
      connect adds its time. */
  lemma AttemptTimesSnoc(log: seq<Event>, e: Event)
    ensures e.Connect? ==> AttemptTimes(log + [e]) == AttemptTimes(log) + [e.at]
    ensures !e.Connect? ==> AttemptTimes(log + [e]) == AttemptTimes(log)
  {
    Snoc(log, e);
    assert AttemptTimes(log) + [] == AttemptTimes(log);
  }

  lemma PushCountSnoc(log: seq<Event>, e: Event)
    ensures PushCount(log + [e]) == PushCount(log) + (if e.Push? then 1 else 0)
  {
    Snoc(log, e);
  }

  /** A tick only appends to the log. */
  lemma LogGrows(s: BridgeState, i: TickInput)
    ensures |s.log| <= |Step(s, i).log| && Step(s, i).log[..|s.log|] == s.log
  {
    var m := Reconnect(s, i.now, i.connect);
    if ShouldConnect(s, i.now) {
      var extra := (if s.hasClient then [Close] else []) + [Connect(i.now, i.connect.Connected?)];
      assert m.log == s.log + extra;
    }
    PresentLogGrows(m, i.now, i.fetched, i.pushOk);
  }

  /** Acting on a fetch only appends to the log. */
  lemma PresentLogGrows(s: BridgeState, now: int, fetched: Option<TrackRecord>, pushOk: bool)
    ensures var r := Present(s, now, fetched, pushOk);
      |s.log| <= |r.log| && r.log[..|s.log|] == s.log
  {
    var r := Present(s, now, fetched, pushOk);
    assert r.log == s.log || exists e :: r.log == s.log + [e];
  }

  /** Appending a close keeps the invariant's log facts. */
  lemma CloseKeepsLog(log: seq<Event>)
    requires Guarded(log)
    ensures Guarded(log + [Close]) && Live(log + [Close]) == Live(log)
    ensures AttemptTimes(log + [Close]) == AttemptTimes(log)
    ensures PushCount(log + [Close]) == PushCount(log)
  {
    Snoc(log, Close);
    AttemptTimesSnoc(log, Close);
    PushCountSnoc(log, Close);
  }

  /** Appending a connection attempt makes the session as live as the attempt succeeded. */
  lemma ConnectKeepsLog(log: seq<Event>, now: int, ok: bool)
    requires Guarded(log)
    ensures Guarded(log + [Connect(now, ok)]) && Live(log + [Connect(now, ok)]) == ok
    ensures AttemptTimes(log + [Connect(now, ok)]) == AttemptTimes(log) + [now]
    ensures PushCount(log + [Connect(now, ok)]) == PushCount(log)
  {
    Snoc(log, Connect(now, ok));
    AttemptTimesSnoc(log, Connect(now, ok));
    PushCountSnoc(log, Connect(now, ok));
  }

  /** A further attempt time more than the cooldown after the last one keeps the spacing. */
  lemma SpacedSnoc(ts: seq<int>, t: int)
    requires Spaced(ts)
    requires ts != [] ==> t - ts[|ts| - 1] > ConnectRetryInterval
    ensures Spaced(ts + [t])
  {
    assert (ts + [t])[..|ts|] == ts;
  }

  /** The state after a connection attempt, whatever closed the old client beforehand. */
  lemma AttemptKeepsConsistent(s: BridgeState, closed: seq<Event>, now: int, ok: bool, client: bool)
    requires Consistent(s) && ShouldConnect(s, now)
    requires Guarded(closed) && AttemptTimes(closed) == AttemptTimes(s.log)
    requires ok ==> client
    ensures Consistent(BridgeState(ok, client, s.lastTrack, now, closed + [Connect(now, ok)]))
  {
    ConnectKeepsLog(closed, now, ok);
    SpacedSnoc(AttemptTimes(s.log), now);
  }

  lemma ReconnectKeepsConsistent(s: BridgeState, now: int, outcome: ConnectOutcome)
    requires Consistent(s)
    ensures Consistent(Reconnect(s, now, outcome))
    ensures PushCount(Reconnect(s, now, outcome).log) == PushCount(s.log)
    ensures Reconnect(s, now, outcome).lastTrack == s.lastTrack
  {
    if ShouldConnect(s, now) {
      var closed := if s.hasClient then s.log + [Close] else s.log;
      if s.hasClient { CloseKeepsLog(s.log); }
      var ok := outcome.Connected?;
      var client := s.hasClient || !outcome.ClientUnavailable?;
      AttemptKeepsConsistent(s, closed, now, ok, client);
      assert Reconnect(s, now, outcome) == BridgeState(ok, client, s.lastTrack, now, closed + [Connect(now, ok)]);
    }
  }

  lemma PresentKeepsConsistent(s: BridgeState, now: int, fetched: Option<TrackRecord>, pushOk: bool)
    requires Consistent(s)
    ensures Consistent(Present(s, now, fetched, pushOk))
  {
    var r := Present(s, now, fetched, pushOk);
    match GetCurrentTrack(fetched)
    case Some(t) =>
      if HasTrackChanged(s.lastTrack, t) && s.connected {
        var e := Push(t, BuildPresence(t, now), pushOk);
        Snoc(s.log, e);
        AttemptTimesSnoc(s.log, e);
        assert r.log == s.log + [e];
      }
    case None =>
      if s.lastTrack.Some? && s.connected && s.hasClient {
        Snoc(s.log, Clear);
        AttemptTimesSnoc(s.log, Clear);
        assert r.log == s.log + [Clear];
      }
  }

  /** One tick keeps the invariant. */
  lemma StepKeepsConsistent(s: BridgeState, i: TickInput)
    requires Consistent(s)
    ensures Consistent(Step(s, i))
  {
    ReconnectKeepsConsistent(s, i.now, i.connect);
    PresentKeepsConsistent(Reconnect(s, i.now, i.connect), i.now, i.fetched, i.pushOk);
  }

  /** Any number of ticks keeps the invariant. */
  lemma {:induction false} RunKeepsConsistent(s: BridgeState, ins: seq<TickInput>)
    requires Consistent(s)
    ensures Consistent(Run(s, ins))
    decreases |ins|
  {
    if ins != [] {
      StepKeepsConsistent(s, ins[0]);
      RunKeepsConsistent(Step(s, ins[0]), ins[1..]);
    }
  }

  /** Running the ticks of `a` and then those of `b` is running `a + b`. */
  lemma {:induction false} RunAppend(s: BridgeState, a: seq<TickInput>, b: seq<TickInput>)
    ensures Run(s, a + b) == Run(Run(s, a), b)
    decreases |a|
  {
    if a == [] {
      assert a + b == b;
    } else {
      assert (a + b)[0] == a[0] && (a + b)[1..] == a[1..] + b;
      RunAppend(Step(s, a[0]), a[1..], b);
    }
  }

  /** Running one more tick. */
  lemma RunSnoc(s: BridgeState, ins: seq<TickInput>, i: TickInput)
    ensures Run(s, ins + [i]) == Step(Run(s, ins), i)
  {
    RunAppend(s, ins, [i]);
    assert [i][1..] == [];
  }

  /** The bridge starts out consistent. */
  lemma InitialConsistent()
    ensures Consistent(Initial())
  {
  }

  /** Consecutive spacing implies spacing between any two attempts: no window of the cooldown's
      length holds two attempts. */
  lemma {:induction false} SpacedPairwise(ts: seq<int>)
    requires Spaced(ts)
    ensures forall i, j :: 0 <= i < j < |ts| ==> ts[j] - ts[i] > ConnectRetryInterval
    decreases |ts|
  {
    if |ts| > 1 {
      var ts' := ts[..|ts| - 1];
      SpacedPairwise(ts');
      forall i, j | 0 <= i < j < |ts| ensures ts[j] - ts[i] > ConnectRetryInterval {
        if j < |ts| - 1 {
          assert ts[i] == ts'[i] && ts[j] == ts'[j];
        } else if i < |ts| - 2 {
          assert ts[i] == ts'[i] && ts[|ts| - 2] == ts'[|ts| - 2];
        }
      }
    }
  }

  /** A guarded log issues every push and every clear on a live session. */
  lemma {:induction false} GuardedAt(log: seq<Event>)
    requires Guarded(log)
    ensures forall i :: 0 <= i < |log| && (log[i].Push? || log[i].Clear?) ==> Live(log[..i])
    decreases |log|
  {
    if log != [] {
      var log' := log[..|log| - 1];
      GuardedAt(log');
      forall i | 0 <= i < |log| && (log[i].Push? || log[i].Clear?) ensures Live(log[..i]) {
        if i < |log| - 1 {
          assert log[i] == log'[i] && log[..i] == log'[..i];
        }
      }
    }
  }

  /** From start-up, over any run: connection attempts are more than 30 seconds apart, whatever
      the clock does, so no 30-second window holds two of them. */
  lemma ConnectAttemptsThrottled(ins: seq<TickInput>)
    ensures var ts := AttemptTimes(Run(Initial(), ins).log);
      forall i, j :: 0 <= i < j < |ts| ==> ts[j] - ts[i] > ConnectRetryInterval
  {
    RunKeepsConsistent(Initial(), ins);
    SpacedPairwise(AttemptTimes(Run(Initial(), ins).log));
  }

  /** From start-up, over any run: the bridge pushes and clears only on a live session. */
  lemma PresenceOnlyWhileLive(ins: seq<TickInput>)
    ensures var log := Run(Initial(), ins).log;
      forall i :: 0 <= i < |log| && (log[i].Push? || log[i].Clear?) ==> Live(log[..i])
  {
    RunKeepsConsistent(Initial(), ins);
    GuardedAt(Run(Initial(), ins).log);
  }

  /** A tick whose fetch yields a track with key `key`. */
  predicate FetchesSong(i: TickInput, key: ChangeKey) {
    i.fetched.Some? && IsTrack(i.fetched.value) && Key(i.fetched.value) == key
  }

  /** After a tick that fetched a track, the last track seen has that track's key. */
  lemma StepRemembersKey(s: BridgeState, i: TickInput, key: ChangeKey)
    requires FetchesSong(i, key)
    ensures PushCount(Step(s, i).log) <= PushCount(s.log) + 1
    ensures Step(s, i).lastTrack.Some? && Key(Step(s, i).lastTrack.value) == key
    ensures s.lastTrack.Some? && Key(s.lastTrack.value) == key ==> PushCount(Step(s, i).log) == PushCount(s.log)
  {
    var m := Reconnect(s, i.now, i.connect);
    assert m.lastTrack == s.lastTrack;
    assert PushCount(m.log) == PushCount(s.log) by {
      if ShouldConnect(s, i.now) {
        var closed := if s.hasClient then s.log + [Close] else s.log;
        if s.hasClient { PushCountSnoc(s.log, Close); }
        PushCountSnoc(closed, Connect(i.now, i.connect.Connected?));
      }
    }
    var t := i.fetched.value;
    if HasTrackChanged(m.lastTrack, t) && m.connected {
      PushCountSnoc(m.log, Push(t, BuildPresence(t, i.now), i.pushOk));
    }
  }

  /** Ticks that keep fetching the same song, however far playback advances, push nothing
      once that song is the last track seen. */
  lemma {:induction false} SameSongNoPush(s: BridgeState, ins: seq<TickInput>, key: ChangeKey)
    requires s.lastTrack.Some? && Key(s.lastTrack.value) == key
    requires forall k :: 0 <= k < |ins| ==> FetchesSong(ins[k], key)
    ensures PushCount(Run(s, ins).log) == PushCount(s.log)
    decreases |ins|
  {
    if ins != [] {
      StepRemembersKey(s, ins[0], key);
      SameSongNoPush(Step(s, ins[0]), ins[1..], key);
    }
  }

  /** Consecutive fetches of the same song push at most once in total. */
  lemma SameSongPushesAtMostOnce(s: BridgeState, ins: seq<TickInput>, key: ChangeKey)
    requires forall k :: 0 <= k < |ins| ==> FetchesSong(ins[k], key)
    ensures PushCount(Run(s, ins).log) <= PushCount(s.log) + 1
  {
    if ins != [] {
      StepRemembersKey(s, ins[0], key);
      SameSongNoPush(Step(s, ins[0]), ins[1..], key);
    }
  }

  /** A changed track: pushed exactly when connected after the reconnect step; a failed push
      disconnects; the last track seen advances to it either way. */
  lemma ChangedTrackTick(s: BridgeState, i: TickInput)
    requires i.fetched.Some? && IsTrack(i.fetched.value)
    requires HasTrackChanged(s.lastTrack, i.fetched.value)
    ensures var m := Reconnect(s, i.now, i.connect);
      var r := Step(s, i);
      var t := i.fetched.value;
      (m.connected ==> r == m.(connected := i.pushOk, lastTrack := Some(t),
                               log := m.log + [Push(t, BuildPresence(t, i.now), i.pushOk)])) &&
      (!m.connected ==> r == m.(lastTrack := Some(t)))
  {
  }

  /** An unchanged track: nothing beyond the reconnect step happens. */
  lemma UnchangedTrackTick(s: BridgeState, i: TickInput)
    requires i.fetched.Some? && IsTrack(i.fetched.value)
    requires !HasTrackChanged(s.lastTrack, i.fetched.value)
    ensures Step(s, i) == Reconnect(s, i.now, i.connect)
  {
  }

  /** No track: clear and forget the last track only when one was seen and the session is
      connected; otherwise nothing beyond the reconnect step happens. */
  lemma NoTrackTick(s: BridgeState, i: TickInput)
    requires GetCurrentTrack(i.fetched).None?
    requires Consistent(s)
    ensures var m := Reconnect(s, i.now, i.connect);
      var r := Step(s, i);
      if m.lastTrack.Some? && m.connected
      then r == m.(lastTrack := None, log := m.log + [Clear])
      else r == m
  {
    ReconnectKeepsConsistent(s, i.now, i.connect);
  }

  /** Shutdown clears exactly when connected and closes exactly when a client exists. */
  lemma ShutdownCalls(s: BridgeState)
    requires Consistent(s)
    ensures Shutdown(s).log ==
      s.log + (if s.connected then [Clear] else []) + (if s.hasClient then [Close] else [])
  {
  }

  /** Start-up with a song ten seconds into 200: once the clock is past the cooldown, the first
      tick connects and then pushes a progress bar from `now - 10` to `now + 190`. */
  lemma FirstTickExample(now: int)
    requires now > ConnectRetryInterval
    ensures var t := TrackRecord(Some("Song A"), Some("Artist X"), None, Some("playing"),
                                 Some(10), Some(200), None);
      var r := Step(Initial(), TickInput(now, Some(t), Connected, true));
      r.connected && r.lastTrack == Some(t) &&
      r.log == [Connect(now, true), Push(t, BuildPresence(t, now), true)] &&
      BuildPresence(t, now).timestamps == Some(Timestamps(now - 10, now + 190))
  {
  }

  /** A failed push is not re-sent after the reconnect: the new song advanced the last track
      seen when its push failed, so the next tick, which reconnects once the cooldown since the
      last attempt has passed, fetches the same song and pushes nothing. The song is pushed again
      only once its change key changes, or after a no-track tick on a live session has cleared
      the last track. */
  lemma NoResendAfterReconnect(s: BridgeState, first: TickInput, second: TickInput, key: ChangeKey)
    requires FetchesSong(first, key) && FetchesSong(second, key)
    requires s.connected && HasTrackChanged(s.lastTrack, first.fetched.value) && !first.pushOk
    requires second.connect.Connected? && second.now - s.lastAttempt > ConnectRetryInterval
    ensures var m := Step(s, first);
      var r := Step(m, second);
      !m.connected && r.connected && PushCount(r.log) == PushCount(m.log)
  {
    StepRemembersKey(s, first, key);
    StepRemembersKey(Step(s, first), second, key);
  }
}
