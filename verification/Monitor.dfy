/**
 The nonce-based transaction watcher (transaction/monitor.go).

 `TransactionMonitor` holds the fields guarded by the lock; its methods are the critical
 sections and the classification between them. `World` and `Step` put the same operations in
 an arbitrary interleaving with registrations, chain growth and shutdown: `checkPending`
 drops the lock between taking its snapshot and notifying.
 */
module Monitor {
  import opened Wrappers
  import opened Ledger

  datatype Watch = Watch(txHash: Hash, nonce: nat)

  datatype ErrMsg = TransactionCancelled | MonitorClosed

  /** A watch and everything ever sent on its two channels. */
  datatype Entry = Entry(watch: Watch, receiptC: seq<Hash>, errC: seq<ErrMsg>)

  /** Watches are named by the order of registration; `active` is the `watches` map. */
  datatype State = State(entries: seq<Entry>, active: set<nat>, closed: bool)

  type Answers = map<nat, ReceiptAnswer>

  /** uint64 subtraction: wraps around below zero. */
  function Sub64(a: nat, b: nat): nat {
    (a - b) % TWO64
  }

  // ---------------------------------------------------------------- effect of each critical section

  function Register(s: State, w: Watch): State {
    s.(entries := s.entries + [Entry(w, [], [])], active := s.active + {|s.entries|})
  }

  ghost function Candidates(s: State, nonce: nat): set<nat> {
    set id | id in s.active && id < |s.entries| && s.entries[id].watch.nonce < nonce
  }

  /** Some receipt query failed, or there was a candidate without receipt and no old nonce. */
  ghost predicate Failed(snap: set<nat>, answers: Answers, oldNonce: NonceAnswer)
    requires snap <= answers.Keys
  {
    || (exists id :: id in snap && answers[id].ReceiptError?)
    || (oldNonce.NonceError? && exists id :: id in snap && !answers[id].Receipt?)
  }

  ghost function ConfirmedOf(snap: set<nat>, answers: Answers): map<nat, Hash>
    requires snap <= answers.Keys
  {
    map id | id in snap && answers[id].Receipt? :: answers[id].hash
  }

  ghost function CancelledOf(s: State, snap: set<nat>, answers: Answers, oldNonce: NonceAnswer): set<nat>
    requires snap <= answers.Keys
  {
    set id | id in snap && !answers[id].Receipt? && oldNonce.Nonce?
             && id < |s.entries| && s.entries[id].watch.nonce <= oldNonce.n
  }

  ghost function NotifiedEntry(e: Entry, id: nat, confirmed: map<nat, Hash>, cancelled: set<nat>): Entry {
    Entry(e.watch,
          if id in confirmed then e.receiptC + [confirmed[id]] else e.receiptC,
          if id in cancelled then e.errC + [TransactionCancelled] else e.errC)
  }

  /** Deliver the verdicts and forget the watches that got one. */
  ghost function Notified(s: State, confirmed: map<nat, Hash>, cancelled: set<nat>): (t: State) {
    State(seq(|s.entries|, i requires 0 <= i < |s.entries| => NotifiedEntry(s.entries[i], i, confirmed, cancelled)),
          s.active - confirmed.Keys - cancelled,
          s.closed)
  }

  ghost function ClosedEntry(e: Entry, told: bool): Entry {
    if told then e.(errC := e.errC + [MonitorClosed]) else e
  }

  ghost function ShutDown(s: State): (t: State) {
    State(seq(|s.entries|, i requires 0 <= i < |s.entries| => ClosedEntry(s.entries[i], i in s.active)), s.active, true)
  }

  /** The watch is in the map and its nonce is used. */
  predicate Due(s: State, id: nat, nonce: nat) {
    id in s.active && id < |s.entries| && s.entries[id].watch.nonce < nonce
  }

  function WithReceipt(e: Entry, h: Hash): Entry {
    Entry(e.watch, e.receiptC + [h], e.errC)
  }

  function WithError(e: Entry, m: ErrMsg): Entry {
    Entry(e.watch, e.receiptC, e.errC + [m])
  }

  // ---------------------------------------------------------------- the code

  class TransactionMonitor {
    var entries: seq<Entry>
    var active: set<nat>
    var closed: bool

    ghost function View(): State
      reads this
    {
      State(entries, active, closed)
    }

    ghost predicate Valid()
      reads this
    {
      forall id :: id in active ==> id < |entries|
    }

    constructor ()
      ensures Valid() && View() == State([], {}, false)
    {
      entries, active, closed := [], {}, false;
    }

    method WatchTransaction(txHash: Hash, nonce: nat) returns (id: nat)
      requires Valid()
      modifies this
      ensures Valid() && View() == Register(old(View()), Watch(txHash, nonce)) && id == |old(entries)|
      ensures entries == old(entries) + [Entry(Watch(txHash, nonce), [], [])] && active == old(active) + {id}
    {
      id := |entries|;
      entries := entries + [Entry(Watch(txHash, nonce), [], [])];
      active := active + {id};
    }

    /** Ranges over the watch map, in any order, under the lock. */
    method PotentiallyConfirmedWatches(nonce: nat) returns (watches: set<nat>)
      requires Valid()
      ensures watches == Candidates(View(), nonce)
      ensures forall id :: id in watches <==> id in active && entries[id].watch.nonce < nonce
    {
      watches := {};
      var todo := active;
      while todo != {}
        invariant todo <= active
        invariant watches == set id | id in active - todo && entries[id].watch.nonce < nonce
        decreases todo
      {
        var id :| id in todo;
        todo := todo - {id};
        if entries[id].watch.nonce < nonce {
          watches := watches + {id};
        }
      }
    }

    /** The lock-free middle of `checkPending`: None when some query fails. */
    method Classify(snap: set<nat>, answers: Answers, oldNonce: NonceAnswer)
      returns (r: Option<(map<nat, Hash>, set<nat>)>)
      requires snap <= answers.Keys && forall id :: id in snap ==> id < |entries|
      ensures r.None? <==> Failed(snap, answers, oldNonce)
      ensures r.Some? ==> r.value == (ConfirmedOf(snap, answers), CancelledOf(View(), snap, answers, oldNonce))
      ensures r.Some? ==> forall id :: id in r.value.0 <==> id in snap && answers[id].Receipt?
      ensures r.Some? ==> forall id :: id in r.value.0 ==> r.value.0[id] == answers[id].hash
      ensures r.Some? ==> forall id :: id in r.value.1 <==>
                id in snap && !answers[id].Receipt? && oldNonce.Nonce? && entries[id].watch.nonce <= oldNonce.n
    {
      var confirmed: map<nat, Hash> := map[];
      var potential: set<nat> := {};
      var todo := snap;
      while todo != {}
        invariant todo <= snap
        invariant confirmed == ConfirmedOf(snap - todo, answers)
        invariant potential == set id | id in snap - todo && !answers[id].Receipt?
        invariant forall id :: id in snap - todo ==> !answers[id].ReceiptError?
        decreases todo
      {
        var id :| id in todo;
        todo := todo - {id};
        match answers[id] {
          case Receipt(h) => confirmed := confirmed[id := h];
          case NoReceipt => potential := potential + {id};
          case ReceiptNotFound => potential := potential + {id};
          case ReceiptError => return None;
        }
      }
      assert snap - todo == snap;
      var cancelled: set<nat> := {};
      if potential != {} {
        if oldNonce.NonceError? {
          return None;
        }
        cancelled := CancelOld(potential, oldNonce.n);
      }
      assert cancelled == CancelledOf(View(), snap, answers, oldNonce);
      return Some((confirmed, cancelled));
    }

    method CancelOld(potential: set<nat>, oldNonce: nat) returns (cancelled: set<nat>)
      requires forall id :: id in potential ==> id < |entries|
      ensures cancelled == set id | id in potential && entries[id].watch.nonce <= oldNonce
    {
      cancelled := {};
      var todo := potential;
      while todo != {}
        invariant todo <= potential
        invariant cancelled == set id | id in potential - todo && entries[id].watch.nonce <= oldNonce
        decreases todo
      {
        var id :| id in todo;
        todo := todo - {id};
        if entries[id].watch.nonce <= oldNonce {
          cancelled := cancelled + {id};
        }
      }
    }

    /** The locked end of `checkPending`. */
    method Notify(confirmed: map<nat, Hash>, cancelled: set<nat>)
      requires Valid() && confirmed.Keys <= active && cancelled <= active
      modifies this
      ensures Valid() && View() == Notified(old(View()), confirmed, cancelled)
      ensures active == old(active) - confirmed.Keys - cancelled && |entries| == |old(entries)|
      ensures forall id :: id in confirmed && id !in cancelled ==>
                entries[id] == WithReceipt(old(entries)[id], confirmed[id])
      ensures forall id :: id in cancelled && id !in confirmed ==>
                entries[id] == WithError(old(entries)[id], TransactionCancelled)
      ensures forall id :: 0 <= id < |entries| && id !in confirmed && id !in cancelled ==>
                entries[id] == old(entries)[id]
    {
      NotifyConfirmed(confirmed);
      ghost var s := View();
      var todo := cancelled;
      while todo != {}
        invariant todo <= cancelled && Valid() && |entries| == |s.entries| && closed == s.closed
        invariant active == s.active - (cancelled - todo)
        invariant forall i :: 0 <= i < |entries| ==>
                    entries[i] == NotifiedEntry(s.entries[i], i, map[], cancelled - todo)
        decreases todo
      {
        var id :| id in todo;
        todo := todo - {id};
        entries := entries[id := entries[id].(errC := entries[id].errC + [TransactionCancelled])];
        active := active - {id};
      }
      assert cancelled - todo == cancelled;
      assert entries == Notified(old(View()), confirmed, cancelled).entries;
    }

    method NotifyConfirmed(confirmed: map<nat, Hash>)
      requires Valid() && confirmed.Keys <= active
      modifies this
      ensures Valid() && View() == Notified(old(View()), confirmed, {})
    {
      ghost var s := View();
      var todo := confirmed;
      while todo.Keys != {}
        invariant todo.Keys <= confirmed.Keys && (forall id :: id in todo ==> todo[id] == confirmed[id])
        invariant Valid() && |entries| == |s.entries| && closed == s.closed
        invariant active == s.active - (confirmed - todo.Keys).Keys
        invariant forall i :: 0 <= i < |entries| ==>
                    entries[i] == NotifiedEntry(s.entries[i], i, confirmed - todo.Keys, {})
        decreases todo.Keys
      {
        var id :| id in todo.Keys;
        todo := todo - {id};
        entries := entries[id := entries[id].(receiptC := entries[id].receiptC + [confirmed[id]])];
        active := active - {id};
      }
      assert confirmed - todo.Keys == confirmed;
      assert entries == Notified(s, confirmed, {}).entries;
    }

    /** `checkPending` when nothing interferes. It fails exactly when a query it makes fails, and then
        notifies and removes nobody. Otherwise a watch that is due gets its receipt, or the cancellation
        if it has none and its nonce is old enough, and leaves the map; every other watch is unchanged. */
    method CheckPending(nonce: NonceAnswer, answers: Answers, oldNonce: NonceAnswer) returns (err: bool)
      requires Valid() && active <= answers.Keys
      modifies this
      ensures Valid() && |entries| == |old(entries)| && closed == old(closed)
      ensures err <==>
                || nonce.NonceError?
                || (exists id: nat :: Due(old(View()), id, nonce.n) && answers[id].ReceiptError?)
                || (oldNonce.NonceError? && exists id: nat :: Due(old(View()), id, nonce.n) && !answers[id].Receipt?)
      ensures err ==> View() == old(View())
      ensures !err ==> forall id: nat :: Due(old(View()), id, nonce.n) && answers[id].Receipt? ==>
                id !in active && entries[id] == WithReceipt(old(entries)[id], answers[id].hash)
      ensures !err ==> forall id: nat :: Due(old(View()), id, nonce.n) && !answers[id].Receipt? ==>
                old(entries)[id].watch.nonce <= oldNonce.n ==>
                id !in active && entries[id] == WithError(old(entries)[id], TransactionCancelled)
      ensures !err ==> forall id: nat :: Due(old(View()), id, nonce.n) && !answers[id].Receipt? ==>
                old(entries)[id].watch.nonce > oldNonce.n ==>
                id in active && entries[id] == old(entries)[id]
      ensures !err ==> forall id: nat :: id < |entries| && !Due(old(View()), id, nonce.n) ==>
                (id in active <==> id in old(active)) && entries[id] == old(entries)[id]
    {
      if nonce.NonceError? {
        return true;
      }
      var snap := PotentiallyConfirmedWatches(nonce.n);
      assert forall id :: id in snap <==> Due(View(), id, nonce.n);
      var verdicts := Classify(snap, answers, oldNonce);
      if verdicts.None? {
        return true;
      }
      Notify(verdicts.value.0, verdicts.value.1);
      return false;
    }

    /** What the watch loop does when it ends. */
    method NotifyClosed()
      requires Valid()
      modifies this
      ensures Valid() && View() == ShutDown(old(View()))
      ensures closed && |entries| == |old(entries)|
      ensures forall id :: 0 <= id < |entries| ==>
                entries[id] == if id in active then WithError(old(entries)[id], MonitorClosed) else old(entries)[id]
    {
      ghost var s := View();
      var todo := active;
      while todo != {}
        invariant todo <= active && active == s.active && |entries| == |s.entries|
        invariant forall i :: 0 <= i < |entries| ==> entries[i] == ClosedEntry(s.entries[i], i in active - todo)
        decreases todo
      {
        var id :| id in todo;
        todo := todo - {id};
        entries := entries[id := entries[id].(errC := entries[id].errC + [MonitorClosed])];
      }
      closed := true;
      assert entries == ShutDown(s).entries;
    }
  }

  // ---------------------------------------------------------------- interleavings

  /** How far the single watch loop is with its current check. */
  datatype Phase =
    | Idle
    | Asked(block: nat, nonce: nat)
    | Querying(block: nat, nonce: nat, snap: set<nat>, answers: Answers)
    | Decided(block: nat, confirmed: map<nat, Hash>, cancelled: set<nat>)

  /** `verdicts` remembers the block at which each cancellation was decided. */
  datatype World = World(chain: Chain, depth: nat, m: State, phase: Phase, verdicts: map<nat, nat>)

  datatype Step =
    | Mine(txs: seq<Hash>)
    | Watching(watch: Watch)
    | AskNonce(block: nat, answer: NonceAnswer)
    | Snapshot
    | AskReceipt(id: nat, receipt: ReceiptAnswer)
    | AskOldNonce(oldNonce: NonceAnswer)
    | Deliver
    | Close

  ghost predicate Enabled(w: World, st: Step) {
    match st
    case Mine(_) => true
    case Watching(_) => true
    case AskNonce(block, answer) => w.phase.Idle? && !w.m.closed && HonestNonce(w.chain, block, answer)
    case Snapshot => w.phase.Asked?
    case AskReceipt(id, receipt) =>
      && w.phase.Querying? && id in w.phase.snap - w.phase.answers.Keys && id < |w.m.entries|
      && HonestReceipt(w.chain, w.m.entries[id].watch.txHash, receipt)
    case AskOldNonce(answer) =>
      && w.phase.Querying? && w.phase.snap == w.phase.answers.Keys
      && HonestNonce(w.chain, Sub64(w.phase.block, w.depth), answer)
    case Deliver => w.phase.Decided?
    case Close => w.phase.Idle? && !w.m.closed
  }

  ghost function Recorded(verdicts: map<nat, nat>, cancelled: set<nat>, block: nat): map<nat, nat> {
    verdicts + map id | id in cancelled :: block
  }

  ghost function Apply(w: World, st: Step): World
    requires Enabled(w, st)
  {
    match st
    case Mine(txs) => w.(chain := w.chain + [txs])
    case Watching(watch) => w.(m := Register(w.m, watch))
    case AskNonce(block, answer) => if answer.NonceError? then w else w.(phase := Asked(block, answer.n))
    case Snapshot => w.(phase := Querying(w.phase.block, w.phase.nonce, Candidates(w.m, w.phase.nonce), map[]))
    case AskReceipt(id, receipt) =>
      if receipt.ReceiptError? then w.(phase := Idle)
      else w.(phase := w.phase.(answers := w.phase.answers[id := receipt]))
    case AskOldNonce(answer) =>
      if Failed(w.phase.snap, w.phase.answers, answer) then w.(phase := Idle)
      else w.(phase := Decided(w.phase.block, ConfirmedOf(w.phase.snap, w.phase.answers),
                               CancelledOf(w.m, w.phase.snap, w.phase.answers, answer)))
    case Deliver =>
      w.(m := Notified(w.m, w.phase.confirmed, w.phase.cancelled), phase := Idle,
         verdicts := Recorded(w.verdicts, w.phase.cancelled, w.phase.block))
    case Close => w.(m := ShutDown(w.m))
  }

  ghost predicate Init(w: World) {
    w.m == State([], {}, false) && w.phase.Idle? && w.verdicts == map[]
  }

  // ---------------------------------------------------------------- what every step keeps

  predicate Silent(e: Entry) {
    e.receiptC == [] && e.errC == []
  }

  /** At most one message in all; before shutdown the map holds exactly the silent watches. */
  ghost predicate ChannelsOk(s: State) {
    && (forall id :: id in s.active ==> id < |s.entries|)
    && (forall i :: 0 <= i < |s.entries| ==> |s.entries[i].receiptC| + |s.entries[i].errC| <= 1)
    && (forall i :: 0 <= i < |s.entries| ==> Silent(s.entries[i]) ==> i in s.active)
    && (!s.closed ==> forall id :: id in s.active ==> Silent(s.entries[id]))
  }

  /** Grounds for calling a watch cancelled at `block`. */
  ghost predicate Grounds(chain: Chain, depth: nat, watch: Watch, block: nat) {
    && block < |chain| && watch.nonce < NonceAt(chain, block)
    && watch.txHash !in Mined(chain[..block + 1])
    && Sub64(block, depth) < |chain| && watch.nonce <= NonceAt(chain, Sub64(block, depth))
  }

  /** Every message ever sent is justified by the chain. */
  ghost predicate MessagesOk(w: World) {
    forall i :: 0 <= i < |w.m.entries| ==>
      var e := w.m.entries[i];
      && (e.receiptC != [] ==> e.receiptC == [e.watch.txHash] && e.watch.txHash in Mined(w.chain))
      && (TransactionCancelled in e.errC ==> i in w.verdicts && Grounds(w.chain, w.depth, e.watch, w.verdicts[i]))
  }

  ghost predicate AnswerOk(chain: Chain, block: nat, watch: Watch, a: ReceiptAnswer)
    requires block < |chain|
  {
    match a
    case Receipt(hash) => hash == watch.txHash && hash in Mined(chain)
    case NoReceipt => watch.txHash !in Mined(chain[..block + 1])
    case ReceiptNotFound => watch.txHash !in Mined(chain[..block + 1])
    case ReceiptError => false
  }

  ghost predicate BlockOk(chain: Chain, block: nat, nonce: nat) {
    block < |chain| && nonce == NonceAt(chain, block)
  }

  ghost predicate PhaseOk(w: World)
    requires ChannelsOk(w.m)
  {
    match w.phase
    case Idle => true
    case Asked(block, nonce) => !w.m.closed && BlockOk(w.chain, block, nonce)
    case Querying(block, nonce, snap, answers) =>
      && !w.m.closed && BlockOk(w.chain, block, nonce) && snap <= w.m.active && answers.Keys <= snap
      && (forall id :: id in snap ==> w.m.entries[id].watch.nonce < nonce)
      && (forall id :: id in answers ==> AnswerOk(w.chain, block, w.m.entries[id].watch, answers[id]))
    case Decided(block, confirmed, cancelled) =>
      && !w.m.closed && confirmed.Keys <= w.m.active && cancelled <= w.m.active && confirmed.Keys !! cancelled
      && (forall id :: id in confirmed ==>
            confirmed[id] == w.m.entries[id].watch.txHash && confirmed[id] in Mined(w.chain))
      && (forall id :: id in cancelled ==> Grounds(w.chain, w.depth, w.m.entries[id].watch, block))
  }

  ghost predicate Inv(w: World) {
    ChannelsOk(w.m) && MessagesOk(w) && PhaseOk(w)
  }

  lemma GroundsGrow(a: Chain, b: Chain, depth: nat, watch: Watch, block: nat)
    requires a <= b && Grounds(a, depth, watch, block)
    ensures Grounds(b, depth, watch, block)
  {
    NonceAtStable(a, b, block);
    NonceAtStable(a, b, Sub64(block, depth));
    assert b[..block + 1] == a[..block + 1];
  }

  lemma StepMine(w: World, st: Step)
    requires Inv(w) && st.Mine?
    ensures Inv(Apply(w, st))
  {
    var w' := Apply(w, st);
    MinedGrows(w.chain, w'.chain);
    forall watch, block | Grounds(w.chain, w.depth, watch, block) ensures Grounds(w'.chain, w'.depth, watch, block) {
      GroundsGrow(w.chain, w'.chain, w.depth, watch, block);
    }
    if w.phase.Asked? || w.phase.Querying? {
      NonceAtStable(w.chain, w'.chain, w.phase.block);
      assert w'.chain[..w.phase.block + 1] == w.chain[..w.phase.block + 1];
    }
  }

  lemma StepAskReceipt(w: World, st: Step)
    requires Inv(w) && st.AskReceipt? && Enabled(w, st)
    ensures Inv(Apply(w, st))
  {
    if !st.receipt.ReceiptError? {
      HonestIsOk(w.chain, w.phase.block, w.m.entries[st.id].watch, st.receipt);
    }
  }

  /** What is not mined now was not mined at an earlier block. */
  lemma HonestIsOk(chain: Chain, block: nat, watch: Watch, a: ReceiptAnswer)
    requires block < |chain| && HonestReceipt(chain, watch.txHash, a) && !a.ReceiptError?
    ensures AnswerOk(chain, block, watch, a)
  {
    MinedGrows(chain[..block + 1], chain);
  }

  lemma StepAskOldNonce(w: World, st: Step)
    requires Inv(w) && st.AskOldNonce? && Enabled(w, st)
    ensures Inv(Apply(w, st))
  {
    var p := w.phase;
    if !Failed(p.snap, p.answers, st.oldNonce) {
      forall id | id in CancelledOf(w.m, p.snap, p.answers, st.oldNonce)
        ensures Grounds(w.chain, w.depth, w.m.entries[id].watch, p.block) {
        assert AnswerOk(w.chain, p.block, w.m.entries[id].watch, p.answers[id]);
      }
    }
  }

  lemma StepDeliver(w: World, st: Step)
    requires Inv(w) && st.Deliver? && Enabled(w, st)
    ensures Inv(Apply(w, st))
  {
    var w' := Apply(w, st);
    forall i | 0 <= i < |w'.m.entries|
      ensures var e := w'.m.entries[i];
              && (e.receiptC != [] ==> e.receiptC == [e.watch.txHash] && e.watch.txHash in Mined(w'.chain))
              && (TransactionCancelled in e.errC ==>
                    i in w'.verdicts && Grounds(w'.chain, w'.depth, e.watch, w'.verdicts[i]))
    {
      var e := w.m.entries[i];
      assert w'.m.entries[i] == NotifiedEntry(e, i, w.phase.confirmed, w.phase.cancelled);
    }
  }

  lemma StepOther(w: World, st: Step)
    requires Inv(w) && Enabled(w, st)
    requires st.Watching? || st.AskNonce? || st.Snapshot? || st.Close?
    ensures Inv(Apply(w, st))
  {
    var w' := Apply(w, st);
    if st.Close? {
      assert forall i :: 0 <= i < |w.m.entries| ==> w'.m.entries[i] == ClosedEntry(w.m.entries[i], i in w.m.active);
    }
  }

  lemma StepKeepsInv(w: World, st: Step)
    requires Inv(w) && Enabled(w, st)
    ensures Inv(Apply(w, st))
  {
    match st
    case Mine(_) => StepMine(w, st);
    case AskReceipt(_, _) => StepAskReceipt(w, st);
    case AskOldNonce(_) => StepAskOldNonce(w, st);
    case Deliver => StepDeliver(w, st);
    case _ => StepOther(w, st);
  }

  // ---------------------------------------------------------------- whole runs

  ghost predicate Run(ws: seq<World>, sts: seq<Step>) {
    && |ws| == |sts| + 1 && Init(ws[0])
    && forall i {:trigger sts[i]} :: 0 <= i < |sts| ==> Enabled(ws[i], sts[i]) && ws[i + 1] == Apply(ws[i], sts[i])
  }

  /** In every reachable world each watch has at most one message, every message is justified,
      and before shutdown the watch map holds exactly the watches that got none. */
  lemma {:induction false} RunInv(ws: seq<World>, sts: seq<Step>, k: nat)
    requires Run(ws, sts) && k < |ws|
    ensures Inv(ws[k])
  {
    if k > 0 {
      RunInv(ws, sts, k - 1);
      StepKeepsInv(ws[k - 1], sts[k - 1]);
    }
  }

  ghost predicate EntryLater(e: Entry, e': Entry) {
    e.watch == e'.watch && e.receiptC <= e'.receiptC && e.errC <= e'.errC
  }

  /** Messages are never taken back, watches never renamed, the chain never rewritten. */
  ghost predicate Later(w: World, w': World) {
    && w.chain <= w'.chain && w.depth == w'.depth && |w.m.entries| <= |w'.m.entries|
    && forall i :: 0 <= i < |w.m.entries| ==> EntryLater(w.m.entries[i], w'.m.entries[i])
  }

  lemma StepLater(w: World, st: Step)
    requires Enabled(w, st)
    ensures Later(w, Apply(w, st))
  {
  }

  lemma LaterTransitive(a: World, b: World, c: World)
    requires Later(a, b) && Later(b, c)
    ensures Later(a, c)
  {
  }

  lemma RunStepLater(ws: seq<World>, sts: seq<Step>, k: nat)
    requires Run(ws, sts) && k < |sts|
    ensures Later(ws[k], ws[k + 1])
  {
    StepLater(ws[k], sts[k]);
  }

  lemma {:induction false} RunLater(ws: seq<World>, sts: seq<Step>, j: nat, k: nat)
    requires Run(ws, sts) && j <= k < |ws|
    ensures Later(ws[j], ws[k])
    decreases k - j
  {
    if j < k {
      RunLater(ws, sts, j, k - 1);
      RunStepLater(ws, sts, k - 1);
      LaterTransitive(ws[j], ws[k - 1], ws[k]);
    }
  }

  /** Once a watch has its message it never gets another, so no send on its buffered channels blocks. */
  lemma MessageIsFinal(ws: seq<World>, sts: seq<Step>, j: nat, k: nat, i: nat)
    requires Run(ws, sts) && j <= k < |ws| && i < |ws[j].m.entries|
    requires !Silent(ws[j].m.entries[i])
    ensures i < |ws[k].m.entries| && ws[k].m.entries[i] == ws[j].m.entries[i]
  {
    RunLater(ws, sts, j, k);
    RunInv(ws, sts, k);
    assert EntryLater(ws[j].m.entries[i], ws[k].m.entries[i]);
  }

  lemma OtherStepsQuiet(w: World, st: Step)
    requires Enabled(w, st) && !st.Deliver? && !st.Close?
    ensures var m := Apply(w, st).m; w.m.active <= m.active && w.m.entries <= m.entries
  {
  }

  /** Only delivery and shutdown send or remove anything: over any stretch of a run without them, so
      through every check that fails, at whatever point and whatever happens meanwhile, no watch is
      told anything and none is forgotten. */
  lemma {:induction false} OnlyDeliveryNotifies(ws: seq<World>, sts: seq<Step>, i: nat, j: nat)
    requires Run(ws, sts) && i <= j < |ws| && forall k :: i <= k < j ==> !sts[k].Deliver? && !sts[k].Close?
    ensures ws[i].m.active <= ws[j].m.active && ws[i].m.entries <= ws[j].m.entries
    decreases j
  {
    if i < j {
      OnlyDeliveryNotifies(ws, sts, i, j - 1);
      assert !sts[j - 1].Deliver? && !sts[j - 1].Close?;
      OtherStepsQuiet(ws[j - 1], sts[j - 1]);
    }
  }

  // ---------------------------------------------------------------- what a check delivers

  /** What the check under way has on record about a watch that was answered with `a`. */
  ghost predicate OnRecord(w: World, id: nat, a: ReceiptAnswer) {
    match w.phase
    case Querying(_, _, snap, answers) => id in snap && id in answers && answers[id] == a
    case Decided(_, confirmed, _) => a.Receipt? ==> id in confirmed && confirmed[id] == a.hash
    case _ => false
  }

  lemma StepKeepsRecord(w: World, st: Step, id: nat, a: ReceiptAnswer)
    requires Inv(w) && Enabled(w, st) && OnRecord(w, id, a) && !Apply(w, st).phase.Idle?
    ensures OnRecord(Apply(w, st), id, a)
  {
  }

  /** From the answer to step j one check is under way. */
  ghost predicate SameCheck(ws: seq<World>, k: nat, j: nat) {
    forall i :: k <= i <= j && i < |ws| ==> !ws[i].phase.Idle?
  }

  lemma {:induction false} AnswerOnRecord(ws: seq<World>, sts: seq<Step>, k: nat, j: nat)
    requires Run(ws, sts) && k < j < |ws| && sts[k].AskReceipt? && SameCheck(ws, k, j)
    ensures OnRecord(ws[j], sts[k].id, sts[k].receipt)
    decreases j
  {
    if k + 1 < j {
      AnswerOnRecord(ws, sts, k, j - 1);
      RunInv(ws, sts, j - 1);
      assert ws[j] == Apply(ws[j - 1], sts[j - 1]);
      StepKeepsRecord(ws[j - 1], sts[j - 1], sts[k].id, sts[k].receipt);
    } else {
      assert ws[j] == Apply(ws[k], sts[k]);
    }
  }

  /** A watch that a check finds a receipt for has exactly that receipt, and is no longer watched, once
      the check delivers, whatever happens meanwhile. */
  lemma ReceiptDelivered(ws: seq<World>, sts: seq<Step>, k: nat, j: nat)
    requires Run(ws, sts) && k < j < |sts| && sts[k].AskReceipt? && sts[k].receipt.Receipt?
    requires SameCheck(ws, k, j) && sts[j].Deliver?
    ensures var id, m := sts[k].id, ws[j + 1].m;
            && id < |m.entries| && id !in m.active
            && m.entries[id].receiptC == [sts[k].receipt.hash] && m.entries[id].errC == []
  {
    AnswerOnRecord(ws, sts, k, j);
    RunInv(ws, sts, j);
    assert ws[j + 1] == Apply(ws[j], sts[j]);
    var id, e := sts[k].id, ws[j].m.entries[sts[k].id];
    assert Silent(e);
    assert ws[j + 1].m.entries[id] == NotifiedEntry(e, id, ws[j].phase.confirmed, ws[j].phase.cancelled);
  }

  lemma {:induction false} CancelledOnRecord(ws: seq<World>, sts: seq<Step>, m: nat, j: nat, id: nat)
    requires Run(ws, sts) && m < j < |ws| && SameCheck(ws, m, j)
    requires ws[m + 1].phase.Decided? && id in ws[m + 1].phase.cancelled
    ensures ws[j].phase.Decided? && id in ws[j].phase.cancelled
    decreases j
  {
    if m + 1 < j {
      CancelledOnRecord(ws, sts, m, j - 1, id);
      assert Enabled(ws[j - 1], sts[j - 1]) && ws[j] == Apply(ws[j - 1], sts[j - 1]);
    }
  }

  /** A watch that a check finds no receipt for, and whose nonce is not above the old one, is told it is
      cancelled and no longer watched, once the check delivers. */
  lemma CancellationDelivered(ws: seq<World>, sts: seq<Step>, k: nat, m: nat, j: nat)
    requires Run(ws, sts) && k < m < j < |sts| && sts[k].AskReceipt? && !sts[k].receipt.Receipt?
    requires SameCheck(ws, k, j) && sts[m].AskOldNonce? && sts[m].oldNonce.Nonce? && sts[j].Deliver?
    requires sts[k].id < |ws[m].m.entries| && ws[m].m.entries[sts[k].id].watch.nonce <= sts[m].oldNonce.n
    ensures var id, s := sts[k].id, ws[j + 1].m;
            && id < |s.entries| && id !in s.active
            && s.entries[id].errC == [TransactionCancelled] && s.entries[id].receiptC == []
  {
    var id := sts[k].id;
    AnswerOnRecord(ws, sts, k, m);
    RunInv(ws, sts, m);
    assert ws[m + 1] == Apply(ws[m], sts[m]);
    CancelledOnRecord(ws, sts, m, j, id);
    RunInv(ws, sts, j);
    assert ws[j + 1] == Apply(ws[j], sts[j]);
    var e := ws[j].m.entries[id];
    assert Silent(e);
    assert ws[j + 1].m.entries[id] == NotifiedEntry(e, id, ws[j].phase.confirmed, ws[j].phase.cancelled);
  }

  lemma GroundsMeanLost(chain: Chain, depth: nat, watch: Watch, block: nat)
    requires Grounds(chain, depth, watch, block)
    ensures watch.nonce < |Mined(chain)| && Mined(chain)[watch.nonce] != watch.txHash
  {
    MinedGrows(chain[..block + 1], chain);
    assert Mined(chain)[watch.nonce] == Mined(chain[..block + 1])[watch.nonce];
  }

  /** A transaction that at any time of the run is found to have used its own nonce is at no time,
      earlier or later, reported cancelled. */
  lemma WinnerNeverCancelled(ws: seq<World>, sts: seq<Step>, j: nat, k: nat, i: nat)
    requires Run(ws, sts) && j < |ws| && k < |ws| && i < |ws[j].m.entries|
    requires var watch := ws[j].m.entries[i].watch;
             watch.nonce < |Mined(ws[k].chain)| && Mined(ws[k].chain)[watch.nonce] == watch.txHash
    ensures TransactionCancelled !in ws[j].m.entries[i].errC
  {
    RunInv(ws, sts, j);
    var e := ws[j].m.entries[i];
    if TransactionCancelled in e.errC {
      GroundsMeanLost(ws[j].chain, ws[j].depth, e.watch, ws[j].verdicts[i]);
      if j <= k {
        RunLater(ws, sts, j, k);
        MinedGrows(ws[j].chain, ws[k].chain);
      } else {
        RunLater(ws, sts, k, j);
        MinedGrows(ws[k].chain, ws[j].chain);
      }
      assert false;
    }
  }

  // ---------------------------------------------------------------- how deep the competitor is

  /** The transaction that used nonce `n` is in block `j`. */
  ghost predicate UsedIn(chain: Chain, n: nat, j: nat) {
    j < |chain| && |Mined(chain[..j])| <= n < |Mined(chain[..j + 1])|
  }

  /** A cancelled watch's nonce was used at least `depth` blocks before the deciding block if and
      only if it is not the very nonce found `depth` blocks back, where `<=` lets it through. */
  lemma CompetitorBuriedIff(chain: Chain, depth: nat, watch: Watch, block: nat, j: nat)
    requires Grounds(chain, depth, watch, block) && depth <= block < TWO64
    requires UsedIn(chain, watch.nonce, j)
    ensures j + depth <= block <==> watch.nonce != NonceAt(chain, block - depth)
  {
    assert Sub64(block, depth) == block - depth;
    var d := block - depth;
    if j <= d {
      MinedGrows(chain[..j + 1], chain[..d + 1]);
    } else {
      MinedGrows(chain[..d + 1], chain[..j]);
    }
  }

  lemma Extend(ws: seq<World>, sts: seq<Step>, st: Step)
    requires Run(ws, sts) && Enabled(ws[|ws| - 1], st)
    ensures Run(ws + [Apply(ws[|ws| - 1], st)], sts + [st])
  {
  }

  lemma TwoBlocks(rival: Hash)
    ensures var chain := [[], [rival]];
            NonceAt(chain, 0) == 0 && NonceAt(chain, 1) == 1 && Mined(chain) == [rival] && UsedIn(chain, 0, 1)
  {
    var chain: Chain := [[], [rival]];
    assert chain[..0] == [] && chain[..1] == [[]] && chain[..2] == chain;
    assert Mined(chain[..1]) == Mined(chain[..1][..0]) + [] == [];
    assert Mined(chain) == Mined(chain[..1]) + [rival];
  }

  lemma DeliverToOne(e: Entry)
    ensures Notified(State([e], {0}, false), map[], {0}) ==
            State([e.(errC := e.errC + [TransactionCancelled])], {}, false)
    ensures Recorded(map[], {0}, 1) == map[0 := 1]
  {
  }

  ghost function OneWatch(rival: Hash, e: Entry, phase: Phase): World {
    World([[], [rival]], 1, State([e], {0}, false), phase, map[])
  }

  lemma SnapshotTaken(rival: Hash, e: Entry) returns (ws: seq<World>, sts: seq<Step>)
    requires e.watch.nonce == 0 && Silent(e)
    ensures Run(ws, sts) && ws[|ws| - 1] == OneWatch(rival, e, Querying(1, 1, {0}, map[]))
  {
    TwoBlocks(rival);
    ws, sts := [World([[], [rival]], 1, State([], {}, false), Idle, map[])], [];
    ws, sts := Take(ws, sts, Watching(e.watch), OneWatch(rival, e, Idle));
    ws, sts := Take(ws, sts, AskNonce(1, Nonce(1)), OneWatch(rival, e, Asked(1, 1)));
    assert Candidates(State([e], {0}, false), 1) == {0};
    ws, sts := Take(ws, sts, Snapshot, OneWatch(rival, e, Querying(1, 1, {0}, map[])));
  }

  lemma VerdictReached(rival: Hash, e: Entry) returns (ws: seq<World>, sts: seq<Step>)
    requires e.watch.nonce == 0 && Silent(e) && e.watch.txHash != rival
    ensures Run(ws, sts) && ws[|ws| - 1] == OneWatch(rival, e, Decided(1, map[], {0}))
  {
    TwoBlocks(rival);
    ws, sts := SnapshotTaken(rival, e);
    ws, sts := Take(ws, sts, AskReceipt(0, ReceiptNotFound),
                    OneWatch(rival, e, Querying(1, 1, {0}, map[0 := ReceiptNotFound])));
    assert Sub64(1, 1) == 0;
    assert ConfirmedOf({0}, map[0 := ReceiptNotFound]) == map[];
    assert CancelledOf(State([e], {0}, false), {0}, map[0 := ReceiptNotFound], Nonce(0)) == {0};
    ws, sts := Take(ws, sts, AskOldNonce(Nonce(0)), OneWatch(rival, e, Decided(1, map[], {0})));
  }

  /** A run in which a watch is cancelled although its nonce was used less than `depth` blocks ago. */
  lemma CancelledTooEarly() returns (ws: seq<World>, sts: seq<Step>, w: World)
    ensures Run(ws, sts) && w == ws[|ws| - 1] && w.depth == 1
    ensures |w.m.entries| == 1 && w.m.entries[0].errC == [TransactionCancelled]
    ensures 0 in w.verdicts && w.verdicts[0] == 1 && UsedIn(w.chain, 0, 1)
  {
    var mine, rival := Hash([1]), Hash([2]);
    assert mine.bytes[0] != rival.bytes[0];
    TwoBlocks(rival);
    var e := Entry(Watch(mine, 0), [], []);
    ws, sts := VerdictReached(rival, e);
    DeliverToOne(e);
    w := World([[], [rival]], 1, State([e.(errC := e.errC + [TransactionCancelled])], {}, false), Idle, map[0 := 1]);
    ws, sts := Take(ws, sts, Deliver, w);
  }

  lemma Take(ws: seq<World>, sts: seq<Step>, st: Step, w: World) returns (ws': seq<World>, sts': seq<Step>)
    requires Run(ws, sts) && Enabled(ws[|ws| - 1], st) && Apply(ws[|ws| - 1], st) == w
    ensures Run(ws', sts') && ws' == ws + [w]
  {
    Extend(ws, sts, st);
    ws', sts' := ws + [w], sts + [st];
  }
}
