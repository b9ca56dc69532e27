/**
 The peering service (peering/peering.go): a handler per peer with a backoff timer, driven by
 goroutines, network notifications and timers in any interleaving. Times are nanoseconds.
 */
module Peering {
  import opened Wrappers

  const SECOND: int := 1_000_000_000
  const MAX_BACKOFF: int := 600 * SECOND
  const JITTER_PERCENT: int := 10
  const INITIAL_DELAY: int := 5 * SECOND

  // ---------------------------------------------------------------- backoff

  /** The two random draws of one call; only their ranges matter. */
  datatype Draw = Draw(growth: int, jitter: int)

  predicate InRange(delay: int, r: Draw) {
    0 <= r.growth < delay && 0 <= r.jitter < MAX_BACKOFF * JITTER_PERCENT / 100
  }

  function NextBackoff(delay: int, r: Draw): int {
    var d := if delay < MAX_BACKOFF then delay + delay / 2 + r.growth else delay;
    if d > MAX_BACKOFF then MAX_BACKOFF - r.jitter else d
  }

  predicate DelayOk(delay: int) {
    INITIAL_DELAY <= delay <= MAX_BACKOFF
  }

  /** Within the last tenth below the maximum. */
  predicate Settled(delay: int) {
    MAX_BACKOFF - MAX_BACKOFF * JITTER_PERCENT / 100 < delay <= MAX_BACKOFF
  }

  /** One call keeps the bounds, grows by a half to one and a half times below the maximum, and
      never leaves the last tenth. */
  lemma BackoffStep(delay: int, r: Draw)
    requires DelayOk(delay) && InRange(delay, r)
    ensures var d := NextBackoff(delay, r);
            && DelayOk(d)
            && (Settled(d) || delay + delay / 2 <= d < delay + delay / 2 + delay)
            && (Settled(delay) ==> Settled(d))
  {
  }

  function Iterate(draws: seq<Draw>): int {
    if draws == [] then INITIAL_DELAY else NextBackoff(Iterate(draws[..|draws| - 1]), draws[|draws| - 1])
  }

  ghost predicate Drawn(draws: seq<Draw>) {
    draws == [] || (Drawn(draws[..|draws| - 1]) && InRange(Iterate(draws[..|draws| - 1]), draws[|draws| - 1]))
  }

  /** The slowest growth: half a delay at each call. */
  function Slowest(k: nat): int {
    if k == 0 then INITIAL_DELAY else Slowest(k - 1) + Slowest(k - 1) / 2
  }

  lemma {:induction false} BackoffGrows(draws: seq<Draw>)
    requires Drawn(draws)
    ensures DelayOk(Iterate(draws)) && (Settled(Iterate(draws)) || Iterate(draws) >= Slowest(|draws|))
  {
    if draws != [] {
      var before := draws[..|draws| - 1];
      BackoffGrows(before);
      BackoffStep(Iterate(before), draws[|draws| - 1]);
    }
  }

  lemma SlowestTwelve()
    ensures Slowest(12) > MAX_BACKOFF
    ensures Slowest(11) <= MAX_BACKOFF - MAX_BACKOFF * JITTER_PERCENT / 100
  {
    assert Slowest(3) == 16_875_000_000;
    assert Slowest(6) == 56_953_125_000;
    assert Slowest(9) == 192_216_796_875;
    assert Slowest(11) == 432_487_792_968;
  }

  /** Whatever is drawn, from the twelfth call after a reset on every delay is above nine and at
      most ten minutes. */
  lemma {:induction false} TwelveCallsSettle(draws: seq<Draw>)
    requires Drawn(draws) && |draws| >= 12
    ensures Settled(Iterate(draws))
    decreases |draws|
  {
    BackoffGrows(draws);
    if |draws| == 12 {
      SlowestTwelve();
    } else {
      var before := draws[..|draws| - 1];
      TwelveCallsSettle(before);
      BackoffGrows(before);
      BackoffStep(Iterate(before), draws[|draws| - 1]);
    }
  }

  function NoGrowth(k: nat): seq<Draw> {
    if k == 0 then [] else NoGrowth(k - 1) + [Draw(0, 0)]
  }

  lemma SlowestBelow(k: nat)
    requires k <= 11
    ensures INITIAL_DELAY <= Slowest(k) <= MAX_BACKOFF - MAX_BACKOFF * JITTER_PERCENT / 100
  {
    SlowestTwelve();
    SlowestRises(k, 11);
  }

  lemma NoGrowthStep(k: nat)
    requires 0 < k <= 11
    ensures InRange(Slowest(k - 1), Draw(0, 0)) && NextBackoff(Slowest(k - 1), Draw(0, 0)) == Slowest(k)
  {
    SlowestBelow(k);
    SlowestBelow(k - 1);
  }

  lemma Snoc(draws: seq<Draw>, r: Draw)
    requires Drawn(draws) && InRange(Iterate(draws), r)
    ensures Drawn(draws + [r]) && Iterate(draws + [r]) == NextBackoff(Iterate(draws), r)
  {
  }

  /** Twelve is sharp: eleven calls that draw zero growth stay at or below nine minutes. */
  lemma {:induction false} ElevenMayNotSettle(k: nat)
    requires k <= 11
    ensures Drawn(NoGrowth(k)) && Iterate(NoGrowth(k)) == Slowest(k) && !Settled(Slowest(k))
  {
    SlowestBelow(k);
    if k > 0 {
      ElevenMayNotSettle(k - 1);
      NoGrowthStep(k);
      Snoc(NoGrowth(k - 1), Draw(0, 0));
    }
  }

  lemma {:induction false} SlowestRises(j: nat, k: nat)
    requires j <= k
    ensures INITIAL_DELAY <= Slowest(j) <= Slowest(k)
    decreases k
  {
    if j < k {
      SlowestRises(j, k - 1);
    } else if k > 0 {
      SlowestRises(k - 1, k - 1);
    }
  }

  // ---------------------------------------------------------------- one handler

  /** Timers are numbered in the order of creation. `draws` are the draws since the last reset. */
  datatype Handler = Handler(peer: nat, nextDelay: int, reconnectTimer: Option<nat>, armed: set<nat>, made: nat,
                             cancelled: bool, draws: seq<Draw>)

  function NewHandler(peer: nat, cancelled: bool): Handler {
    Handler(peer, INITIAL_DELAY, None, {}, 0, cancelled, [])
  }

  function Backed(h: Handler, r: Draw): Handler {
    h.(nextDelay := NextBackoff(h.nextDelay, r), draws := h.draws + [r])
  }

  /** `startIfDisconnected` arms a new timer when there is none. */
  function Started(h: Handler, connected: bool, r: Draw): Handler {
    if h.reconnectTimer.Some? || connected then h
    else Backed(h, r).(reconnectTimer := Some(h.made), armed := h.armed + {h.made}, made := h.made + 1)
  }

  /** `stopIfConnected` drops the timer and resets the delay. */
  function StoppedIfConnected(h: Handler, connected: bool): Handler {
    if h.reconnectTimer.None? || !connected then h
    else h.(reconnectTimer := None, armed := h.armed - {h.reconnectTimer.value},
            nextDelay := INITIAL_DELAY, draws := [])
  }

  /** `stop` cancels the context and drops the timer. */
  function Stopped(h: Handler): Handler {
    if h.reconnectTimer.None? then h.(cancelled := true)
    else h.(cancelled := true, reconnectTimer := None, armed := h.armed - {h.reconnectTimer.value})
  }

  /** The locked part of `reconnect` after a failed dial: the timer in the field, if any, is armed again. */
  function Failed(h: Handler, r: Draw): Handler {
    if h.reconnectTimer.None? then h
    else Backed(h, r).(armed := h.armed + {h.reconnectTimer.value})
  }

  ghost predicate HandlerOk(h: Handler) {
    && h.armed <= (if h.reconnectTimer.Some? then {h.reconnectTimer.value} else {})
    && DelayOk(h.nextDelay) && Drawn(h.draws) && h.nextDelay == Iterate(h.draws)
  }

  lemma BackedOk(h: Handler, r: Draw)
    requires HandlerOk(h) && InRange(h.nextDelay, r)
    ensures var b := Backed(h, r); DelayOk(b.nextDelay) && Drawn(b.draws) && b.nextDelay == Iterate(b.draws)
  {
  }

  class PeerHandler {
    var h: Handler

    constructor (peer: nat)
      ensures h == NewHandler(peer, false) && HandlerOk(h)
    {
      h := NewHandler(peer, false);
    }

    method NextBackoffStep(r: Draw) returns (delay: int)
      requires HandlerOk(h) && InRange(h.nextDelay, r)
      modifies this
      ensures h == Backed(old(h), r) && delay == h.nextDelay && DelayOk(delay)
      ensures var d := old(h.nextDelay);
              var grown := if d < 600_000_000_000 then d + d / 2 + r.growth else d;
              delay == if grown > 600_000_000_000 then 600_000_000_000 - r.jitter else grown
      ensures |h.draws| >= 12 ==> Settled(delay)
    {
      BackedOk(h, r);
      var d := h.nextDelay;
      if d < MAX_BACKOFF {
        d := d + (d / 2 + r.growth);
      }
      if d > MAX_BACKOFF {
        d := MAX_BACKOFF;
        d := d - r.jitter;
      }
      h := h.(nextDelay := d, draws := h.draws + [r]);
      if |h.draws| >= 12 {
        TwelveCallsSettle(h.draws);
      }
      return d;
    }

    method StartIfDisconnected(connected: bool, r: Draw) returns (delay: Option<int>)
      requires HandlerOk(h) && InRange(h.nextDelay, r)
      modifies this
      ensures HandlerOk(h) && h == Started(old(h), connected, r)
      ensures delay.Some? <==> old(h.reconnectTimer).None? && !connected
      ensures delay.Some? ==>
                && DelayOk(delay.value) && delay.value == h.nextDelay
                && h.reconnectTimer.Some? && h.armed == {h.reconnectTimer.value}
      ensures delay.None? ==> h == old(h)
    {
      delay := None;
      if h.reconnectTimer.None? && !connected {
        BackedOk(h, r);
        var d := NextBackoffStep(r);
        h := h.(reconnectTimer := Some(h.made), armed := h.armed + {h.made}, made := h.made + 1);
        delay := Some(d);
      }
    }

    method StopIfConnected(connected: bool)
      requires HandlerOk(h)
      modifies this
      ensures HandlerOk(h) && h == StoppedIfConnected(old(h), connected)
      ensures connected ==> h.reconnectTimer.None? && h.armed == {}
      ensures connected && old(h.reconnectTimer).Some? ==> h.nextDelay == 5_000_000_000
      ensures !connected || old(h.reconnectTimer).None? ==> h == old(h)
    {
      if h.reconnectTimer.Some? && connected {
        h := h.(armed := h.armed - {h.reconnectTimer.value});
        h := h.(reconnectTimer := None);
        h := h.(nextDelay := INITIAL_DELAY, draws := []);
      }
    }

    method Stop()
      requires HandlerOk(h)
      modifies this
      ensures HandlerOk(h) && h == Stopped(old(h))
      ensures h.cancelled && h.reconnectTimer.None? && h.armed == {} && h.nextDelay == old(h.nextDelay)
    {
      h := h.(cancelled := true);
      if h.reconnectTimer.Some? {
        h := h.(armed := h.armed - {h.reconnectTimer.value});
        h := h.(reconnectTimer := None);
      }
    }

    /** The whole of `reconnect` when nothing interferes. */
    method Reconnect(dialFails: bool, connected: bool, r: Draw)
      requires HandlerOk(h) && InRange(h.nextDelay, r)
      modifies this
      ensures HandlerOk(h)
      ensures h == StoppedIfConnected(if dialFails then Failed(old(h), r) else old(h), connected)
      ensures connected ==> h.reconnectTimer.None? && h.armed == {}
      ensures connected && old(h.reconnectTimer).Some? ==> h.nextDelay == 5_000_000_000
      ensures !connected ==> h.reconnectTimer == old(h.reconnectTimer)
      ensures !connected && dialFails && old(h.reconnectTimer).Some? ==>
                h.armed == {h.reconnectTimer.value} && |h.draws| == |old(h.draws)| + 1
      ensures !connected && (!dialFails || old(h.reconnectTimer).None?) ==> h == old(h)
    {
      if dialFails && h.reconnectTimer.Some? {
        BackedOk(h, r);
        var _ := NextBackoffStep(r);
        h := h.(armed := h.armed + {h.reconnectTimer.value});
      }
      StopIfConnected(connected);
    }
  }

  // ---------------------------------------------------------------- the service and its goroutines

  datatype Phase = Fresh | Running | Ended

  datatype Goroutine = StartG(h: nat) | StopG(h: nat) | DialG(h: nat) | EndG(h: nat)

  /** Handlers are numbered in the order of creation; `peers` maps a peer to its current handler. */
  datatype World = World(phase: Phase, notifying: bool, peers: map<nat, nat>, handlers: seq<Handler>,
                         goroutines: multiset<Goroutine>, connected: set<nat>)

  datatype Step =
    | Start
    | StopNotify                       // the first, unlocked part of Stop
    | StopLocked                       // the rest of it
    | AddPeer(p: nat)
    | RemovePeer(p: nat)
    | NetChange(p: nat, up: bool)      // the network's view of a peer
    | Connected(p: nat)                // notifications
    | Disconnected(p: nat)
    | RunStart(h: nat, r: Draw)
    | RunStop(h: nat)
    | Fire(h: nat, t: nat)
    | DialFails(h: nat, r: Draw)
    | DialSucceeds(h: nat)
    | RunEnd(h: nat)

  function IsConnected(w: World, h: nat): bool
    requires h < |w.handlers|
  {
    w.handlers[h].peer in w.connected
  }

  ghost predicate Enabled(w: World, st: Step) {
    match st
    case RunStart(h, r) => StartG(h) in w.goroutines && h < |w.handlers| && InRange(w.handlers[h].nextDelay, r)
    case RunStop(h) => StopG(h) in w.goroutines && h < |w.handlers|
    case Fire(h, t) => h < |w.handlers| && t in w.handlers[h].armed
    case DialFails(h, r) => DialG(h) in w.goroutines && h < |w.handlers| && InRange(w.handlers[h].nextDelay, r)
    case DialSucceeds(h) => DialG(h) in w.goroutines && h < |w.handlers|
    case RunEnd(h) => EndG(h) in w.goroutines && h < |w.handlers|
    case _ => true
  }

  function Spawned(w: World, g: Goroutine): World {
    w.(goroutines := w.goroutines + multiset{g})
  }

  function Begun(w: World): World {
    w.(notifying := true, phase := Running,
       goroutines := w.goroutines + multiset(set p | p in w.peers :: StartG(w.peers[p])))
  }

  function Halted(w: World): World {
    w.(phase := Ended,
       handlers := seq(|w.handlers|, i requires 0 <= i < |w.handlers| =>
                     if i in w.peers.Values then Stopped(w.handlers[i]) else w.handlers[i]))
  }

  function Added(w: World, p: nat): World {
    var id := |w.handlers|;
    w.(peers := w.peers[p := id], handlers := w.handlers + [NewHandler(p, w.phase.Ended?)],
       goroutines := if w.phase.Running? then w.goroutines + multiset{StartG(id)} else w.goroutines)
  }

  function Update(w: World, h: nat, x: Handler): World
    requires h < |w.handlers|
  {
    w.(handlers := w.handlers[h := x])
  }

  ghost function Apply(w: World, st: Step): World
    requires Enabled(w, st)
  {
    match st
    case Start => if w.phase.Fresh? then Begun(w) else w
    case StopNotify => w.(notifying := false)
    case StopLocked => if w.phase.Ended? then w else Halted(w)
    case AddPeer(p) => if p in w.peers then w else Added(w, p)
    case RemovePeer(p) =>
      if p !in w.peers || w.peers[p] >= |w.handlers| then w
      else Update(w, w.peers[p], Stopped(w.handlers[w.peers[p]])).(peers := w.peers - {p})
    case NetChange(p, up) => w.(connected := if up then w.connected + {p} else w.connected - {p})
    case Connected(p) => if w.notifying && p in w.peers then Spawned(w, StopG(w.peers[p])) else w
    case Disconnected(p) => if w.notifying && p in w.peers then Spawned(w, StartG(w.peers[p])) else w
    case RunStart(h, r) =>
      Update(w, h, Started(w.handlers[h], IsConnected(w, h), r)).(goroutines := w.goroutines - multiset{StartG(h)})
    case RunStop(h) =>
      Update(w, h, StoppedIfConnected(w.handlers[h], IsConnected(w, h)))
      .(goroutines := w.goroutines - multiset{StopG(h)})
    case Fire(h, t) =>
      Update(w, h, w.handlers[h].(armed := w.handlers[h].armed - {t})).(goroutines := w.goroutines + multiset{DialG(h)})
    case DialFails(h, r) =>
      Update(w, h, Failed(w.handlers[h], r)).(goroutines := w.goroutines - multiset{DialG(h)} + multiset{EndG(h)})
    case DialSucceeds(h) => w.(goroutines := w.goroutines - multiset{DialG(h)} + multiset{EndG(h)})
    case RunEnd(h) =>
      Update(w, h, StoppedIfConnected(w.handlers[h], IsConnected(w, h)))
      .(goroutines := w.goroutines - multiset{EndG(h)})
  }

  /** Every handler has at most the timer in its field armed, and its delay in bounds. */
  ghost predicate Inv(w: World) {
    && (forall i :: 0 <= i < |w.handlers| ==> HandlerOk(w.handlers[i]))
    && (forall p :: p in w.peers ==> w.peers[p] < |w.handlers| && w.handlers[w.peers[p]].peer == p)
  }

  lemma HandlerSteps(h: Handler, connected: bool, r: Draw, t: nat)
    requires HandlerOk(h)
    ensures InRange(h.nextDelay, r) ==> HandlerOk(Started(h, connected, r)) && HandlerOk(Failed(h, r))
    ensures HandlerOk(StoppedIfConnected(h, connected)) && HandlerOk(Stopped(h))
            && HandlerOk(h.(armed := h.armed - {t}))
  {
    if InRange(h.nextDelay, r) {
      BackedOk(h, r);
    }
  }

  /** The new value of the one handler a goroutine or timer step changes. */
  ghost function Changed(w: World, st: Step): (int, Handler)
    requires Enabled(w, st) && (st.RunStart? || st.RunStop? || st.Fire? || st.DialFails? || st.RunEnd?)
  {
    match st
    case RunStart(h, r) => (h, Started(w.handlers[h], IsConnected(w, h), r))
    case RunStop(h) => (h, StoppedIfConnected(w.handlers[h], IsConnected(w, h)))
    case Fire(h, t) => (h, w.handlers[h].(armed := w.handlers[h].armed - {t}))
    case DialFails(h, r) => (h, Failed(w.handlers[h], r))
    case RunEnd(h) => (h, StoppedIfConnected(w.handlers[h], IsConnected(w, h)))
  }

  lemma ChangedOk(w: World, st: Step)
    requires Inv(w) && Enabled(w, st) && (st.RunStart? || st.RunStop? || st.Fire? || st.DialFails? || st.RunEnd?)
    ensures var c := Changed(w, st);
            && 0 <= c.0 < |w.handlers| && HandlerOk(c.1) && c.1.peer == w.handlers[c.0].peer
            && Apply(w, st) == w.(handlers := w.handlers[c.0 := c.1], goroutines := Apply(w, st).goroutines)
  {
    var h := st.h;
    HandlerSteps(w.handlers[h], IsConnected(w, h), if st.RunStart? || st.DialFails? then st.r else Draw(0, 0),
                 if st.Fire? then st.t else 0);
  }

  lemma ChangeKeepsInv(w: World, h: nat, x: Handler, g: multiset<Goroutine>)
    requires Inv(w) && h < |w.handlers| && HandlerOk(x) && x.peer == w.handlers[h].peer
    ensures Inv(w.(handlers := w.handlers[h := x], goroutines := g))
  {
  }

  lemma StopsKeepInv(w: World, st: Step)
    requires Inv(w) && (st.StopLocked? || st.RemovePeer?)
    ensures Inv(Apply(w, st))
  {
    forall i | 0 <= i < |w.handlers| ensures HandlerOk(Stopped(w.handlers[i])) {
      HandlerSteps(w.handlers[i], false, Draw(0, 0), 0);
    }
  }

  lemma AddKeepsInv(w: World, p: nat)
    requires Inv(w) && p !in w.peers
    ensures Inv(Added(w, p))
  {
  }

  lemma StepKeepsInv(w: World, st: Step)
    requires Inv(w) && Enabled(w, st)
    ensures Inv(Apply(w, st))
  {
    if st.RunStart? || st.RunStop? || st.Fire? || st.DialFails? || st.RunEnd? {
      ChangedOk(w, st);
      ChangeKeepsInv(w, Changed(w, st).0, Changed(w, st).1, Apply(w, st).goroutines);
    } else if st.StopLocked? || st.RemovePeer? {
      StopsKeepInv(w, st);
    } else if st.AddPeer? && st.p !in w.peers {
      AddKeepsInv(w, st.p);
    }
  }

  /** The worlds a sequence of steps passes through. */
  ghost predicate Exec(w: World, ws: seq<World>, sts: seq<Step>) {
    && |ws| == |sts| + 1 && ws[0] == w
    && forall i {:trigger sts[i]} :: 0 <= i < |sts| ==> Enabled(ws[i], sts[i]) && ws[i + 1] == Apply(ws[i], sts[i])
  }

  lemma {:induction false} ExecInv(w: World, ws: seq<World>, sts: seq<Step>, k: nat)
    requires Inv(w) && Exec(w, ws, sts) && k < |ws|
    ensures Inv(ws[k])
  {
    if k > 0 {
      ExecInv(w, ws, sts, k - 1);
      StepKeepsInv(ws[k - 1], sts[k - 1]);
    }
  }

  const EMPTY := World(Fresh, false, map[], [], multiset{}, {})

  /** In every run each handler has at most one armed timer, the one in its field; its delay is
      within five seconds and ten minutes, and above nine minutes once twelve delays were drawn
      since the last reset. */
  lemma RunInv(ws: seq<World>, sts: seq<Step>, k: nat, h: nat)
    requires Exec(EMPTY, ws, sts) && k < |ws| && h < |ws[k].handlers|
    ensures var x := ws[k].handlers[h];
            && |x.armed| <= 1 && (forall t :: t in x.armed ==> x.reconnectTimer == Some(t))
            && 5_000_000_000 <= x.nextDelay <= 600_000_000_000
            && (|x.draws| >= 12 ==> x.nextDelay > 540_000_000_000)
  {
    ExecInv(EMPTY, ws, sts, k);
    var x := ws[k].handlers[h];
    assert HandlerOk(x);
    if x.reconnectTimer.Some? {
      OneTimer(x.armed, x.reconnectTimer.value);
    }
    if |x.draws| >= 12 {
      TwelveCallsSettle(x.draws);
    }
  }

  lemma OneTimer(s: set<nat>, t: nat)
    requires s <= {t}
    ensures |s| <= 1
  {
    assert s == {} || s == {t};
  }

  // ---------------------------------------------------------------- is stopping permanent?

  /** No pending goroutine and no notification can start handler `h`. */
  ghost predicate Unstartable(w: World, h: nat) {
    && StartG(h) !in w.goroutines
    && (h !in w.peers.Values || (w.phase.Ended? && !w.notifying))
  }

  ghost predicate Dead(w: World, h: nat) {
    h < |w.handlers| && w.handlers[h].reconnectTimer.None? && Unstartable(w, h)
  }

  lemma DeadThroughChange(w: World, st: Step, h: nat)
    requires Inv(w) && Enabled(w, st) && Dead(w, h)
    requires st.RunStart? || st.RunStop? || st.Fire? || st.DialFails? || st.RunEnd?
    ensures Dead(Apply(w, st), h)
  {
    ChangedOk(w, st);
  }

  lemma DeadThroughPeers(w: World, st: Step, h: nat)
    requires Inv(w) && Dead(w, h) && (st.AddPeer? || st.RemovePeer? || st.StopLocked?)
    ensures Dead(Apply(w, st), h)
  {
  }

  lemma DeadStays(w: World, st: Step, h: nat)
    requires Inv(w) && Enabled(w, st) && Dead(w, h)
    ensures Dead(Apply(w, st), h)
  {
    if st.RunStart? || st.RunStop? || st.Fire? || st.DialFails? || st.RunEnd? {
      DeadThroughChange(w, st, h);
    } else if st.AddPeer? || st.RemovePeer? || st.StopLocked? {
      DeadThroughPeers(w, st, h);
    } else if st.Disconnected? {
      assert st.p in w.peers ==> w.peers[st.p] in w.peers.Values;
    } else if st.Start? && w.phase.Fresh? {
      assert StartG(h) !in (set p | p in w.peers :: StartG(w.peers[p]));
    }
  }

  lemma {:induction false} DeadForever(w: World, ws: seq<World>, sts: seq<Step>, k: nat, h: nat)
    requires Inv(w) && Exec(w, ws, sts) && k < |ws| && Dead(w, h)
    ensures Dead(ws[k], h)
  {
    if k > 0 {
      DeadForever(w, ws, sts, k - 1, h);
      ExecInv(w, ws, sts, k - 1);
      DeadStays(ws[k - 1], sts[k - 1], h);
    }
  }

  ghost predicate NeverArms(w: World, h: nat)
  {
    forall ws: seq<World>, sts :: Exec(w, ws, sts) ==> Timerless(ws[|ws| - 1], h)
  }

  ghost predicate Timerless(w: World, h: nat) {
    h < |w.handlers| && w.handlers[h].reconnectTimer.None?
  }

  lemma PendingStartArms(w: World, h: nat)
    requires Inv(w) && h < |w.handlers| && w.handlers[h].reconnectTimer.None? && StartG(h) in w.goroutines
    ensures !NeverArms(w, h)
  {
    var down := NetChange(w.handlers[h].peer, false);
    var w1 := Apply(w, down);
    StepKeepsInv(w, down);
    var run := RunStart(h, Draw(0, 0));
    var w2 := Apply(w1, run);
    assert Exec(w, [w, w1, w2], [down, run]);
    assert !Timerless([w, w1, w2][2], h);
  }

  lemma NotificationArms(w: World, h: nat)
    requires Inv(w) && h in w.peers.Values && w.handlers[h].reconnectTimer.None? && w.notifying
    ensures !NeverArms(w, h)
  {
    var p :| p in w.peers && w.peers[p] == h;
    var gone := Disconnected(p);
    var w1 := Apply(w, gone);
    StepKeepsInv(w, gone);
    PendingStartArms(w1, h);
    var ws: seq<World>, sts :| Exec(w1, ws, sts) && !Timerless(ws[|ws| - 1], h);
    Prepend(w, gone, ws, sts);
    assert ([w] + ws)[|[w] + ws| - 1] == ws[|ws| - 1];
  }

  lemma Prepend(w: World, st: Step, ws: seq<World>, sts: seq<Step>)
    requires Enabled(w, st) && Exec(Apply(w, st), ws, sts)
    ensures Exec(w, [w] + ws, [st] + sts)
  {
  }

  /** `stop` is called permanent. After removing a peer or stopping the service, the handler gets no
      timer ever again if and only if no start of it was still pending and, for a stopped service,
      notifications are off: a Start between the two parts of Stop turns them on again. */
  lemma StopIsFinalIff(w: World, st: Step, h: nat)
    requires Inv(w) && h in w.peers.Values
    requires (st.RemovePeer? && st.p in w.peers && w.peers[st.p] == h) || (st.StopLocked? && !w.phase.Ended?)
    ensures NeverArms(Apply(w, st), h) <==> StartG(h) !in w.goroutines && (st.StopLocked? ==> !w.notifying)
  {
    var w' := Apply(w, st);
    StepKeepsInv(w, st);
    assert w'.handlers[h].reconnectTimer.None?;
    if st.RemovePeer? {
      assert h !in w'.peers.Values;
    } else {
      assert h in w'.peers.Values;
    }
    if StartG(h) in w.goroutines {
      PendingStartArms(w', h);
    } else if st.StopLocked? && w.notifying {
      NotificationArms(w', h);
    } else {
      assert Dead(w', h);
      forall ws: seq<World>, sts | Exec(w', ws, sts) ensures Timerless(ws[|ws| - 1], h) {
        DeadForever(w', ws, sts, |ws| - 1, h);
      }
    }
  }

  /** Some run from the empty service ends in this world. */
  ghost predicate Reached(w: World) {
    exists ws: seq<World>, sts :: Exec(EMPTY, ws, sts) && ws[|ws| - 1] == w
  }

  lemma ReachedNext(w: World, st: Step, w': World)
    requires Reached(w) && Enabled(w, st) && Apply(w, st) == w'
    ensures Reached(w')
  {
    var ws: seq<World>, sts :| Exec(EMPTY, ws, sts) && ws[|ws| - 1] == w;
    Append(EMPTY, ws, sts, st);
    assert (ws + [w'])[|ws + [w']| - 1] == w';
  }

  lemma Append(w: World, ws: seq<World>, sts: seq<Step>, st: Step)
    requires Exec(w, ws, sts) && Enabled(ws[|ws| - 1], st)
    ensures Exec(w, ws + [Apply(ws[|ws| - 1], st)], sts + [st])
  {
  }

  lemma EmptyReached()
    ensures Reached(EMPTY)
  {
    assert Exec(EMPTY, [EMPTY], []);
  }

  /** A service with the one peer 7, whose handler is number 0. */
  function OnePeer(phase: Phase, notifying: bool, h: Handler, gs: multiset<Goroutine>, connected: set<nat>): World {
    World(phase, notifying, map[7 := 0], [h], gs, connected)
  }

  lemma OnePeerAdded()
    ensures Reached(OnePeer(Fresh, false, NewHandler(7, false), multiset{}, {}))
  {
    EmptyReached();
    ReachedNext(EMPTY, AddPeer(7), OnePeer(Fresh, false, NewHandler(7, false), multiset{}, {}));
  }

  lemma OnePeerStarted(connected: set<nat>)
    requires Reached(OnePeer(Fresh, false, NewHandler(7, false), multiset{}, connected))
    ensures Reached(OnePeer(Running, true, NewHandler(7, false), multiset{StartG(0)}, connected))
  {
    var w := OnePeer(Fresh, false, NewHandler(7, false), multiset{}, connected);
    assert (set p | p in w.peers :: StartG(w.peers[p])) == {StartG(0)} by {
      assert 7 in w.peers;
    }
    ReachedNext(w, Start, OnePeer(Running, true, NewHandler(7, false), multiset{StartG(0)}, connected));
  }

  /** The handler is cancelled and yet has an armed timer. */
  ghost predicate ArmedAfterStop(w: World, h: nat) {
    h < |w.handlers| && w.handlers[h].cancelled && w.handlers[h].armed != {}
  }

  /** A peer that is removed before its start goroutine ran is dialled all the same. */
  lemma RemovedPeerArmed() returns (w: World)
    ensures Reached(w) && w.peers == map[] && ArmedAfterStop(w, 0)
  {
    OnePeerAdded();
    OnePeerStarted({});
    var w1 := OnePeer(Running, true, NewHandler(7, false), multiset{StartG(0)}, {});
    var w2 := Apply(w1, RemovePeer(7));
    ReachedNext(w1, RemovePeer(7), w2);
    w := Apply(w2, RunStart(0, Draw(0, 0)));
    ReachedNext(w2, RunStart(0, Draw(0, 0)), w);
  }

  /** Stopping the service, with a start between the two parts of it: the notification of a
      disconnection arms the timer of a stopped handler. */
  lemma StoppedServiceArmed() returns (w: World)
    ensures Reached(w) && w.phase.Ended? && ArmedAfterStop(w, 0)
  {
    var h := NewHandler(7, false);
    OnePeerAdded();
    var w1 := OnePeer(Fresh, false, h, multiset{}, {7});
    ReachedNext(OnePeer(Fresh, false, h, multiset{}, {}), NetChange(7, true), w1);
    ReachedNext(w1, StopNotify, w1);
    OnePeerStarted({7});
    var w2 := OnePeer(Running, true, h, multiset{}, {7});
    ReachedNext(OnePeer(Running, true, h, multiset{StartG(0)}, {7}), RunStart(0, Draw(0, 0)), w2);
    w := NotifiedAfterStop(w2);
  }

  lemma NotifiedAfterStop(w2: World) returns (w: World)
    requires Reached(w2) && w2 == OnePeer(Running, true, NewHandler(7, false), multiset{}, {7})
    ensures Reached(w) && w.phase.Ended? && ArmedAfterStop(w, 0)
  {
    var h := Stopped(NewHandler(7, false));
    var w3 := OnePeer(Ended, true, h, multiset{}, {7});
    assert 7 in w2.peers && w2.peers[7] == 0;
    assert Halted(w2).handlers == [h];
    ReachedNext(w2, StopLocked, w3);
    var w4 := OnePeer(Ended, true, h, multiset{}, {});
    ReachedNext(w3, NetChange(7, false), w4);
    var w5 := OnePeer(Ended, true, h, multiset{StartG(0)}, {});
    ReachedNext(w4, Disconnected(7), w5);
    w := Apply(w5, RunStart(0, Draw(0, 0)));
    ReachedNext(w5, RunStart(0, Draw(0, 0)), w);
  }

  // ---------------------------------------------------------------- is a lost peer dialled again?

  /** Neither a connection to the peer nor its removal nor the end of the service. */
  predicate Undisturbed(st: Step, p: nat) {
    st != NetChange(p, true) && st != RemovePeer(p) && !st.StopNotify? && !st.StopLocked?
  }

  ghost predicate AllUndisturbed(sts: seq<Step>, p: nat) {
    forall i :: 0 <= i < |sts| ==> Undisturbed(sts[i], p)
  }

  /** However an undisturbed stretch goes on, the handler makes no dial. */
  ghost predicate NeverDials(w: World, h: nat, p: nat) {
    forall ws: seq<World>, sts :: Exec(w, ws, sts) && AllUndisturbed(sts, p) ==>
      DialG(h) !in ws[|ws| - 1].goroutines
  }

  /** The service runs and `h` is the handler of a peer that is not connected. */
  ghost predicate Waiting(w: World, h: nat, p: nat) {
    w.phase.Running? && h < |w.handlers| && p in w.peers && w.peers[p] == h && p !in w.connected
  }

  /** Nothing is armed and no dial is under way; and there is a timer in the field, which keeps a start
      from arming one, or no start can come. */
  predicate Stuck(w: World, h: nat)
    requires h < |w.handlers|
  {
    && w.handlers[h].armed == {} && DialG(h) !in w.goroutines
    && (w.handlers[h].reconnectTimer.Some? || (StartG(h) !in w.goroutines && !w.notifying))
  }

  lemma StuckThroughChange(w: World, st: Step, h: nat, p: nat)
    requires Inv(w) && Enabled(w, st) && Waiting(w, h, p) && Stuck(w, h)
    requires st.RunStart? || st.RunStop? || st.Fire? || st.DialFails? || st.RunEnd?
    ensures Waiting(Apply(w, st), h, p) && Stuck(Apply(w, st), h)
  {
    ChangedOk(w, st);
    assert w.handlers[h].peer == p;
  }

  lemma StuckStays(w: World, st: Step, h: nat, p: nat)
    requires Inv(w) && Enabled(w, st) && Waiting(w, h, p) && Stuck(w, h) && Undisturbed(st, p)
    ensures Waiting(Apply(w, st), h, p) && Stuck(Apply(w, st), h)
  {
    if st.RunStart? || st.RunStop? || st.Fire? || st.DialFails? || st.RunEnd? {
      StuckThroughChange(w, st, h, p);
    } else if st.RemovePeer? && st.p in w.peers {
      assert w.handlers[w.peers[st.p]].peer == st.p;
    }
  }

  lemma {:induction false} StuckForever(w: World, ws: seq<World>, sts: seq<Step>, k: nat, h: nat, p: nat)
    requires Inv(w) && Exec(w, ws, sts) && k < |ws| && Waiting(w, h, p) && Stuck(w, h)
    requires AllUndisturbed(sts, p)
    ensures Waiting(ws[k], h, p) && Stuck(ws[k], h)
  {
    if k > 0 {
      StuckForever(w, ws, sts, k - 1, h, p);
      ExecInv(w, ws, sts, k - 1);
      assert Undisturbed(sts[k - 1], p);
      StuckStays(ws[k - 1], sts[k - 1], h, p);
    }
  }

  lemma DialsNow(w: World, h: nat, p: nat)
    requires DialG(h) in w.goroutines
    ensures !NeverDials(w, h, p)
  {
    assert Exec(w, [w], []) && DialG(h) in [w][0].goroutines;
  }

  lemma DialsAfter(w: World, st: Step, h: nat, p: nat)
    requires Enabled(w, st) && Undisturbed(st, p) && !NeverDials(Apply(w, st), h, p)
    ensures !NeverDials(w, h, p)
  {
    var ws: seq<World>, sts :| Exec(Apply(w, st), ws, sts) && AllUndisturbed(sts, p)
                               && DialG(h) in ws[|ws| - 1].goroutines;
    Prepend(w, st, ws, sts);
    assert AllUndisturbed([st] + sts, p);
    assert ([w] + ws)[|[w] + ws| - 1] == ws[|ws| - 1];
  }

  lemma ArmedDials(w: World, h: nat, p: nat)
    requires h < |w.handlers| && w.handlers[h].armed != {}
    ensures !NeverDials(w, h, p)
  {
    var t :| t in w.handlers[h].armed;
    DialsNow(Apply(w, Fire(h, t)), h, p);
    DialsAfter(w, Fire(h, t), h, p);
  }

  lemma StartDials(w: World, h: nat, p: nat)
    requires Inv(w) && Waiting(w, h, p) && w.handlers[h].reconnectTimer.None? && StartG(h) in w.goroutines
    ensures !NeverDials(w, h, p)
  {
    var st := RunStart(h, Draw(0, 0));
    assert w.handlers[h].peer == p && HandlerOk(w.handlers[h]);
    ArmedDials(Apply(w, st), h, p);
    DialsAfter(w, st, h, p);
  }

  lemma NotificationDials(w: World, h: nat, p: nat)
    requires Inv(w) && Waiting(w, h, p) && w.handlers[h].reconnectTimer.None? && w.notifying
    ensures !NeverDials(w, h, p)
  {
    StepKeepsInv(w, Disconnected(p));
    StartDials(Apply(w, Disconnected(p)), h, p);
    DialsAfter(w, Disconnected(p), h, p);
  }

  /** The service promises to reconnect. While the peer stays away it is never dialled if and only if the
      handler is stuck: nothing armed and no dial under way, with a timer left in the field or, while the
      service is being stopped, no start to come. */
  lemma NeverDialsIff(w: World, h: nat, p: nat)
    requires Inv(w) && Waiting(w, h, p)
    ensures NeverDials(w, h, p) <==> Stuck(w, h)
  {
    var x := w.handlers[h];
    if Stuck(w, h) {
      forall ws: seq<World>, sts | Exec(w, ws, sts) && AllUndisturbed(sts, p)
        ensures DialG(h) !in ws[|ws| - 1].goroutines
      {
        StuckForever(w, ws, sts, |ws| - 1, h, p);
      }
    } else if DialG(h) in w.goroutines {
      DialsNow(w, h, p);
    } else if x.armed != {} {
      ArmedDials(w, h, p);
    } else if StartG(h) in w.goroutines {
      StartDials(w, h, p);
    } else {
      NotificationDials(w, h, p);
    }
  }

  /** A failed dial of a handler that still has its timer arms it again: it is not stuck, and an absent
      peer will be dialled once more. */
  lemma FailedDialRetried(ws: seq<World>, sts: seq<Step>, k: nat, p: nat)
    requires Exec(EMPTY, ws, sts) && k < |sts| && sts[k].DialFails?
    requires sts[k].h < |ws[k].handlers| && ws[k].handlers[sts[k].h].reconnectTimer.Some?
    ensures var h := sts[k].h;
            && h < |ws[k + 1].handlers|
            && ws[k + 1].handlers[h].armed == {ws[k].handlers[h].reconnectTimer.value}
            && ws[k + 1].handlers[h].reconnectTimer == ws[k].handlers[h].reconnectTimer
            && !Stuck(ws[k + 1], h) && !NeverDials(ws[k + 1], h, p)
  {
    StartInv();
    ExecInv(EMPTY, ws, sts, k);
    assert Enabled(ws[k], sts[k]) && ws[k + 1] == Apply(ws[k], sts[k]);
    assert HandlerOk(ws[k].handlers[sts[k].h]);
    ArmedDials(ws[k + 1], sts[k].h, p);
  }

  lemma StartInv()
    ensures Inv(EMPTY)
  {
  }

  /** A peer added to a running service while it is away will be dialled. */
  lemma AddedPeerDialled(w: World, p: nat)
    requires Inv(w) && w.phase.Running? && p !in w.peers && p !in w.connected
    ensures var w' := Apply(w, AddPeer(p)); p in w'.peers && !NeverDials(w', w'.peers[p], p)
  {
    var w' := Apply(w, AddPeer(p));
    StepKeepsInv(w, AddPeer(p));
    StartDials(w', w'.peers[p], p);
  }

  /** So will every absent peer of a service that is started. */
  lemma StartedPeerDialled(w: World, p: nat)
    requires Inv(w) && w.phase.Fresh? && p in w.peers && p !in w.connected
    requires w.handlers[w.peers[p]].reconnectTimer.None?
    ensures var w' := Apply(w, Start); w'.phase.Running? && p in w'.peers && !NeverDials(w', w'.peers[p], p)
  {
    var w' := Apply(w, Start);
    StepKeepsInv(w, Start);
    assert StartG(w.peers[p]) in (set q | q in w.peers :: StartG(w.peers[q]));
    StartDials(w', w.peers[p], p);
  }

  /** So will a peer whose disconnection is notified, unless a spent timer is in the way. */
  lemma LostPeerDialled(w: World, p: nat)
    requires Inv(w) && w.phase.Running? && w.notifying && p in w.peers && p !in w.connected
    requires w.handlers[w.peers[p]].reconnectTimer.None?
    ensures var w' := Apply(w, Disconnected(p)); !NeverDials(w', w.peers[p], p)
  {
    StepKeepsInv(w, Disconnected(p));
    StartDials(Apply(w, Disconnected(p)), w.peers[p], p);
  }

  /** The notification of a connection, once its goroutine runs, drops the timer and resets the delay. */
  lemma ConnectionStops(w: World, p: nat)
    requires Inv(w) && w.notifying && p in w.peers && p in w.connected
    ensures var w1, h := Apply(w, Connected(p)), w.peers[p];
            && Enabled(w1, RunStop(h))
            && var x := Apply(w1, RunStop(h)).handlers[h];
               && x.reconnectTimer.None? && x.armed == {}
               && (w.handlers[h].reconnectTimer.Some? ==> x.nextDelay == 5_000_000_000)
  {
    assert HandlerOk(w.handlers[w.peers[p]]);
  }

  /** The handler of peer 7 with the timer it drew first. */
  function FirstTimer(armed: set<nat>): Handler {
    Started(NewHandler(7, false), false, Draw(0, 0)).(armed := armed)
  }

  /** A running service with peer 7, its timer fired. */
  function Fired(gs: multiset<Goroutine>, connected: set<nat>): World {
    OnePeer(Running, true, FirstTimer({}), gs, connected)
  }

  lemma FiredReached()
    ensures Reached(Fired(multiset{DialG(0)}, {}))
  {
    OnePeerAdded();
    OnePeerStarted({});
    var w1 := OnePeer(Running, true, FirstTimer({0}), multiset{}, {});
    assert FirstTimer({0}) == Started(NewHandler(7, false), false, Draw(0, 0));
    ReachedNext(OnePeer(Running, true, NewHandler(7, false), multiset{StartG(0)}, {}), RunStart(0, Draw(0, 0)), w1);
    ReachedNext(w1, Fire(0, 0), Fired(multiset{DialG(0)}, {}));
  }

  lemma DialledReached()
    ensures Reached(Fired(multiset{StopG(0), EndG(0)}, {7}))
  {
    FiredReached();
    ReachedNext(Fired(multiset{DialG(0)}, {}), NetChange(7, true), Fired(multiset{DialG(0)}, {7}));
    ReachedNext(Fired(multiset{DialG(0)}, {7}), Connected(7), Fired(multiset{StopG(0), DialG(0)}, {7}));
    ReachedNext(Fired(multiset{StopG(0), DialG(0)}, {7}), DialSucceeds(0), Fired(multiset{StopG(0), EndG(0)}, {7}));
  }

  lemma LostReached()
    ensures Reached(Fired(multiset{StopG(0), EndG(0), StartG(0)}, {}))
  {
    DialledReached();
    ReachedNext(Fired(multiset{StopG(0), EndG(0)}, {7}), NetChange(7, false), Fired(multiset{StopG(0), EndG(0)}, {}));
    ReachedNext(Fired(multiset{StopG(0), EndG(0)}, {}), Disconnected(7),
                Fired(multiset{StopG(0), EndG(0), StartG(0)}, {}));
  }

  lemma TooLateToStop()
    ensures Reached(Fired(multiset{EndG(0), StartG(0)}, {}))
  {
    LostReached();
    ReachedNext(Fired(multiset{StopG(0), EndG(0), StartG(0)}, {}), RunStop(0), Fired(multiset{EndG(0), StartG(0)}, {}));
  }

  lemma TooLateToEnd()
    ensures Reached(Fired(multiset{StartG(0)}, {}))
  {
    TooLateToStop();
    ReachedNext(Fired(multiset{EndG(0), StartG(0)}, {}), RunEnd(0), Fired(multiset{StartG(0)}, {}));
  }

  /** A dial succeeds and the peer leaves before the handler looks: the start that the disconnection
      brings finds a timer in the field, and the handler is stuck although the service runs on. */
  lemma StuckReached() returns (w: World)
    ensures Reached(w) && Waiting(w, 0, 7) && w.notifying && !w.handlers[0].cancelled
    ensures w.goroutines == multiset{} && Stuck(w, 0)
  {
    TooLateToEnd();
    w := Fired(multiset{}, {});
    ReachedNext(Fired(multiset{StartG(0)}, {}), RunStart(0, Draw(0, 0)), w);
  }
}
