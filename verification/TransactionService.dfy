/**
 The transaction service (transaction/transaction.go) on top of the monitor.

 `Service` is the code that writes and deletes store entries. `World` runs it together with the
 monitor and the chain in every interleaving, with crashes and restarts: the chain and the
 store survive a crash, everything else is lost.
 */
module TransactionService {
  import opened Wrappers
  import opened Ledger
  import opened Keys
  import M = Monitor

  type Address = seq<Byte>

  datatype Request = Request(to: Option<Address>, data: seq<Byte>, gasPrice: Option<nat>, gasLimit: nat,
                             value: nat, description: string)

  datatype Tx = Tx(nonce: nat, to: Option<Address>, value: nat, gasLimit: nat, gasPrice: nat, data: seq<Byte>)

  datatype Value = StoredTx(tx: Tx, created: int, description: string) | Marker | NextNonce(n: nat)
                 | Foreign(bytes: seq<Byte>)

  type Store = map<string, Value>

  /** `prepareTransaction`: an estimated gas limit gets 20% on top, in uint64 arithmetic. */
  function Prepare(req: Request, estimate: nat, suggested: nat, nonce: nat): Tx {
    Tx(nonce, req.to, req.value,
       if req.gasLimit == 0 then (estimate + estimate / 5) % TWO64 else req.gasLimit,
       if req.gasPrice.None? then suggested else req.gasPrice.value,
       req.data)
  }

  /** What was asked for is what is sent, under the given nonce; an estimate that leaves room for it
      is raised by a fifth, rounded down. */
  lemma PreparedAsAsked(req: Request, estimate: nat, suggested: nat, nonce: nat)
    ensures var tx := Prepare(req, estimate, suggested, nonce);
            && tx.nonce == nonce && tx.to == req.to && tx.value == req.value && tx.data == req.data
            && (req.gasPrice.Some? ==> req.gasPrice == Some(tx.gasPrice))
            && (req.gasPrice.None? ==> tx.gasPrice == suggested)
            && (req.gasLimit > 0 ==> tx.gasLimit == req.gasLimit)
            && (req.gasLimit == 0 && 6 * estimate < 5 * TWO64 ==> 5 * tx.gasLimit <= 6 * estimate < 5 * tx.gasLimit + 5)
  {
    assert 5 * (estimate + estimate / 5) <= 6 * estimate < 5 * (estimate + estimate / 5) + 5;
  }

  datatype Error = UnknownTransaction | GasPriceTooLow | AlreadyImported | HashChanged | Other

  /** The zero transfer to oneself that takes the nonce of `tx`. */
  function Cancellation(tx: Tx, sender: Address, gas: Option<nat>): Result<Tx, Error> {
    if gas.Some? && gas.value <= tx.gasPrice then Err(GasPriceTooLow)
    else Ok(Tx(tx.nonce, Some(sender), 0, 21000, if gas.Some? then gas.value else tx.gasPrice + 1, []))
  }

  function PutNonce(store: Store, sender: Address, n: nat): Store {
    store[NonceKey(sender) := NextNonce(n)]
  }

  function PutStored(store: Store, h: Hash, v: Value): Store {
    store[StoredKey(h) := v]
  }

  function PutMarker(store: Store, h: Hash): Store {
    store[PendingKey(h) := Marker]
  }

  function DeleteMarker(store: Store, h: Hash): Store {
    store - {PendingKey(h)}
  }

  /** The hashes `PendingTransactions` lists. */
  ghost function PendingHashes(store: Store): set<Hash> {
    PendingIn(store.Keys)
  }

  ghost function PendingIn(keys: set<string>): set<Hash> {
    set k | k in keys && PENDING_PREFIX <= k :: ParsePending(k)
  }

  lemma PendingInAdd(c: Ctx, store: Store, keys: set<string>, key: string)
    requires keys <= store.Keys && key in store && key !in keys
    ensures PendingIn(keys + {key}) == PendingIn(keys) + if PENDING_PREFIX <= key then {ParsePending(key)} else {}
    ensures StoreOk(c, store) && PENDING_PREFIX <= key ==> ParsePending(key) !in PendingIn(keys)
  {
  }

  // ---------------------------------------------------------------- what a store must satisfy

  /** The transactions that occur, and the deterministic signing that names them. */
  datatype Ctx = Ctx(txs: set<Tx>, sign: Tx -> Hash)

  /** Hashes have 32 bytes and do not collide among the transactions that occur. */
  ghost predicate Collisionless(c: Ctx) {
    && (forall t :: |c.sign(t).bytes| == 32)
    && (forall t, u :: t in c.txs && u in c.txs && c.sign(t) == c.sign(u) ==> t == u)
  }

  /** The store knows which transaction `h` names. */
  ghost predicate Known(c: Ctx, store: Store, h: Hash) {
    && |h.bytes| == 32 && StoredKey(h) in store && store[StoredKey(h)].StoredTx?
    && store[StoredKey(h)].tx in c.txs && c.sign(store[StoredKey(h)].tx) == h
  }

  /** Every pending marker is a printed hash whose transaction is stored. */
  ghost predicate StoreOk(c: Ctx, store: Store) {
    && (forall h {:trigger StoredKey(h)} :: StoredKey(h) in store ==> Known(c, store, h))
    && (forall k :: k in store && PENDING_PREFIX <= k ==>
          k == PendingKey(ParsePending(k)) && Known(c, store, ParsePending(k)))
  }

  lemma PutNonceOk(c: Ctx, store: Store, sender: Address, n: nat)
    requires StoreOk(c, store)
    ensures StoreOk(c, PutNonce(store, sender, n)) && PendingHashes(PutNonce(store, sender, n)) == PendingHashes(store)
    ensures KnownKept(c, store, PutNonce(store, sender, n)) && KnownKept(c, PutNonce(store, sender, n), store)
  {
    var s := PutNonce(store, sender, n);
    KeysApart(Hash([]), Hash([]), sender);
    forall h ensures StoredKey(h) != NonceKey(sender) {
      KeysApart(h, h, sender);
    }
    assert forall k :: k in s && PENDING_PREFIX <= k ==> k in store;
    forall g | g in PendingHashes(store) ensures g in PendingHashes(s) {
      var k :| k in store && PENDING_PREFIX <= k && ParsePending(k) == g;
      assert k in s;
    }
  }

  lemma PutStoredOk(c: Ctx, store: Store, t: Tx, created: int, description: string)
    requires Collisionless(c) && StoreOk(c, store) && t in c.txs
    ensures var s := PutStored(store, c.sign(t), StoredTx(t, created, description));
            StoreOk(c, s) && Known(c, s, c.sign(t)) && PendingHashes(s) == PendingHashes(store)
    ensures forall h :: Known(c, store, h) ==>
              Known(c, PutStored(store, c.sign(t), StoredTx(t, created, description)), h)
  {
    var h0 := c.sign(t);
    var s := PutStored(store, h0, StoredTx(t, created, description));
    forall h ensures (StoredKey(h) == StoredKey(h0) ==> h == h0) && !(PENDING_PREFIX <= StoredKey(h)) {
      KeysApart(h, h0, []);
    }
    forall h | StoredKey(h) in s ensures Known(c, s, h) {
      if StoredKey(h) != StoredKey(h0) {
        assert Known(c, store, h);
      }
    }
    forall k | k in s && PENDING_PREFIX <= k ensures k in store {
    }
  }

  lemma PutMarkerOk(c: Ctx, store: Store, h: Hash)
    requires StoreOk(c, store) && Known(c, store, h)
    ensures StoreOk(c, PutMarker(store, h))
    ensures forall g :: Known(c, store, g) <==> Known(c, PutMarker(store, h), g)
    ensures PendingHashes(PutMarker(store, h)) == PendingHashes(store) + {h}
  {
    ParsePrintPending(h);
    var s := PutMarker(store, h);
    forall g ensures StoredKey(g) != PendingKey(h) {
      KeysApart(g, g, []);
    }
    assert PENDING_PREFIX <= PendingKey(h);
    assert PendingKey(h) in s;
    forall g | g in PendingHashes(store) ensures g in PendingHashes(s) {
      var k :| k in store && PENDING_PREFIX <= k && ParsePending(k) == g;
      assert k in s;
    }
  }

  lemma DeleteMarkerOk(c: Ctx, store: Store, h: Hash)
    requires StoreOk(c, store) && |h.bytes| == 32
    ensures StoreOk(c, DeleteMarker(store, h))
    ensures forall g :: Known(c, store, g) <==> Known(c, DeleteMarker(store, h), g)
    ensures PendingHashes(DeleteMarker(store, h)) == PendingHashes(store) - {h}
  {
    DeletedFromPending(c, store, h);
    var s := DeleteMarker(store, h);
    forall g ensures Known(c, store, g) <==> Known(c, s, g) {
      KeysApart(g, g, []);
      assert PENDING_PREFIX <= PendingKey(h);
    }
  }

  lemma DeletedFromPending(c: Ctx, store: Store, h: Hash)
    requires StoreOk(c, store) && |h.bytes| == 32
    ensures PendingHashes(DeleteMarker(store, h)) == PendingHashes(store) - {h}
  {
    ParsePrintPending(h);
    var s := DeleteMarker(store, h);
    forall g | g in PendingHashes(store) - {h} ensures g in PendingHashes(s) {
      var k :| k in store && PENDING_PREFIX <= k && ParsePending(k) == g;
      assert k in s;
    }
    forall g | g in PendingHashes(s) ensures g in PendingHashes(store) - {h} {
      var k :| k in s && PENDING_PREFIX <= k && ParsePending(k) == g;
      assert k == PendingKey(g);
    }
  }

  lemma PendingIsKnown(c: Ctx, store: Store, h: Hash)
    requires StoreOk(c, store) && h in PendingHashes(store)
    ensures Known(c, store, h) && PendingKey(h) in store
  {
    var k :| k in store && PENDING_PREFIX <= k && ParsePending(k) == h;
  }

  lemma PendingIff(c: Ctx, store: Store, h: Hash)
    requires StoreOk(c, store) && |h.bytes| == 32
    ensures h in PendingHashes(store) <==> PendingKey(h) in store
  {
    ParsePrintPending(h);
    if h in PendingHashes(store) {
      PendingIsKnown(c, store, h);
    }
    assert PENDING_PREFIX <= PendingKey(h);
  }

  // ---------------------------------------------------------------- interleavings, crashes, restarts

  /** How far a `Send` or `CancelTransaction` call is after its transaction was broadcast. */
  datatype Stage = NeedNonce | NeedStored | NeedMarker | NeedWaiter | Over

  datatype Op = Op(tx: Tx, stage: Stage)

  /** How far the goroutine waiting for `hash` is. */
  datatype Wait = Starting | Listening(id: nat) | Verdict | Ended

  datatype Waiter = Waiter(hash: Hash, wait: Wait)

  /** `marked`, `confirmed`, `cancelled` and `lineage` remember the whole past of the run. */
  datatype World = World(
    c: Ctx, sender: Address,
    mon: M.World,
    store: Store,
    up: bool, ops: seq<Op>, waiters: seq<Waiter>,
    marked: set<Hash>, confirmed: set<Hash>, cancelled: set<Hash>, lineage: set<(Tx, Tx)>)

  datatype Step =
    | Mine(txs: seq<Tx>)
    | MonitorStep(st: M.Step)
    | WatchSent(hash: Hash)                   // any caller of WatchSentTransaction
    | Send(tx: Tx)                            // broadcast accepted
    | Cancel(original: Hash, gas: Option<nat>)
    | Write(op: nat, ok: bool, created: int, description: string)
    | Spawn(op: nat)
    | WaiterWatches(w: nat, ok: bool)
    | WaiterHears(w: nat)
    | WaiterGivesUp(w: nat)                   // its context is cancelled
    | WaiterDeletes(w: nat, ok: bool)
    | Crash
    | Restart(order: seq<Hash>)

  function Signed(c: Ctx, txs: seq<Tx>): seq<Hash> {
    seq(|txs|, i requires 0 <= i < |txs| => c.sign(txs[i]))
  }

  /** Each mined transaction uses the next nonce. */
  ghost predicate Consecutive(c: Ctx, txs: seq<Tx>, from: nat) {
    forall i :: 0 <= i < |txs| ==> txs[i] in c.txs && txs[i].nonce == from + i
  }

  ghost predicate Enabled(w: World, st: Step) {
    match st
    case Mine(txs) => Consecutive(w.c, txs, |Mined(w.mon.chain)|)
    case MonitorStep(m) => w.up && !m.Mine? && !m.Watching? && M.Enabled(w.mon, m)
    case WatchSent(h) => w.up && Known(w.c, w.store, h)
    case Send(tx) => w.up && tx in w.c.txs
    case Cancel(h, gas) =>
      && w.up && Known(w.c, w.store, h)
      && var r := Cancellation(w.store[StoredKey(h)].tx, w.sender, gas);
         r.Ok? && r.value in w.c.txs
    case Write(i, _, _, _) => w.up && i < |w.ops| && !w.ops[i].stage.NeedWaiter? && !w.ops[i].stage.Over?
    case Spawn(i) => w.up && i < |w.ops| && w.ops[i].stage.NeedWaiter?
    case WaiterWatches(j, _) => w.up && j < |w.waiters| && w.waiters[j].wait.Starting?
    case WaiterHears(j) =>
      && w.up && j < |w.waiters| && w.waiters[j].wait.Listening? && w.waiters[j].wait.id < |w.mon.m.entries|
      && !M.Silent(w.mon.m.entries[w.waiters[j].wait.id])
    case WaiterGivesUp(j) => w.up && j < |w.waiters| && w.waiters[j].wait.Listening?
    case WaiterDeletes(j, _) => w.up && j < |w.waiters| && w.waiters[j].wait.Verdict?
    case Crash => w.up
    case Restart(order) => !w.up && Elements(order) == PendingHashes(w.store)
  }

  function SetWait(waiters: seq<Waiter>, j: nat, wait: Wait): seq<Waiter>
    requires j < |waiters|
  {
    waiters[j := waiters[j].(wait := wait)]
  }

  function WatchOf(store: Store, h: Hash): M.Watch
    requires StoredKey(h) in store && store[StoredKey(h)].StoredTx?
  {
    M.Watch(h, store[StoredKey(h)].tx.nonce)
  }

  function Registered(w: World, h: Hash): World
    requires StoredKey(h) in w.store && w.store[StoredKey(h)].StoredTx?
  {
    w.(mon := w.mon.(m := M.Register(w.mon.m, WatchOf(w.store, h))))
  }

  ghost function HashesOf(m: M.State, ids: set<nat>): set<Hash> {
    set id | id in ids && id < |m.entries| :: m.entries[id].watch.txHash
  }

  ghost function ApplyMonitor(w: World, m: M.Step): World
    requires M.Enabled(w.mon, m)
  {
    var w' := w.(mon := M.Apply(w.mon, m));
    if m.Deliver? then
      w'.(confirmed := w.confirmed + HashesOf(w.mon.m, w.mon.phase.confirmed.Keys),
          cancelled := w.cancelled + HashesOf(w.mon.m, w.mon.phase.cancelled))
    else w'
  }

  ghost function ApplyWrite(w: World, i: nat, ok: bool, created: int, description: string): World
    requires i < |w.ops|
  {
    var op := w.ops[i];
    var h := w.c.sign(op.tx);
    if !ok then w.(ops := w.ops[i := op.(stage := Over)])
    else if op.stage.NeedNonce? then
      w.(store := PutNonce(w.store, w.sender, op.tx.nonce + 1), ops := w.ops[i := op.(stage := NeedStored)])
    else if op.stage.NeedStored? then
      w.(store := PutStored(w.store, h, StoredTx(op.tx, created, description)),
         ops := w.ops[i := op.(stage := NeedMarker)])
    else
      w.(store := PutMarker(w.store, h), marked := w.marked + {h}, ops := w.ops[i := op.(stage := NeedWaiter)])
  }

  ghost function ApplyWatches(w: World, j: nat, ok: bool): World
    requires j < |w.waiters|
  {
    var h := w.waiters[j].hash;
    if ok && StoredKey(h) in w.store && w.store[StoredKey(h)].StoredTx? then
      Registered(w, h).(waiters := SetWait(w.waiters, j, Listening(|w.mon.m.entries|)))
    else w.(waiters := SetWait(w.waiters, j, Ended))
  }

  /** Only a receipt or a cancellation is a verdict; the end of the monitor is not. */
  ghost function ApplyHears(w: World, j: nat): World
    requires j < |w.waiters| && w.waiters[j].wait.Listening? && w.waiters[j].wait.id < |w.mon.m.entries|
  {
    var e := w.mon.m.entries[w.waiters[j].wait.id];
    w.(waiters := SetWait(w.waiters, j,
                          if e.receiptC != [] || M.TransactionCancelled in e.errC then Verdict else Ended))
  }

  ghost function Apply(w: World, st: Step): World
    requires Enabled(w, st)
  {
    match st
    case Mine(txs) => w.(mon := M.Apply(w.mon, M.Mine(Signed(w.c, txs))))
    case MonitorStep(m) => ApplyMonitor(w, m)
    case WatchSent(h) => Registered(w, h)
    case Send(tx) => w.(ops := w.ops + [Op(tx, NeedNonce)])
    case Cancel(h, gas) =>
      var original := w.store[StoredKey(h)].tx;
      var tx := Cancellation(original, w.sender, gas).value;
      w.(ops := w.ops + [Op(tx, NeedStored)], lineage := w.lineage + {(tx, original)})
    case Write(i, ok, created, description) => ApplyWrite(w, i, ok, created, description)
    case Spawn(i) =>
      w.(ops := w.ops[i := w.ops[i].(stage := Over)], waiters := w.waiters + [Waiter(w.c.sign(w.ops[i].tx), Starting)])
    case WaiterWatches(j, ok) => ApplyWatches(w, j, ok)
    case WaiterHears(j) => ApplyHears(w, j)
    case WaiterGivesUp(j) => w.(waiters := SetWait(w.waiters, j, Ended))
    case WaiterDeletes(j, ok) =>
      w.(waiters := SetWait(w.waiters, j, Ended),
         store := if ok then DeleteMarker(w.store, w.waiters[j].hash) else w.store)
    case Crash =>
      w.(up := false, ops := [], waiters := [],
         mon := w.mon.(m := M.State([], {}, false), phase := M.Idle, verdicts := map[]))
    case Restart(order) =>
      w.(up := true, waiters := seq(|order|, i requires 0 <= i < |order| => Waiter(order[i], Starting)))
  }

  // ---------------------------------------------------------------- what every step keeps

  /** `h` names a transaction with nonce `n`. */
  ghost predicate Names(c: Ctx, h: Hash, n: nat) {
    exists t :: t in c.txs && c.sign(t) == h && t.nonce == n
  }

  /** Position i of the chain is held by a transaction with nonce i. */
  ghost predicate ChainOk(c: Ctx, chain: Chain) {
    forall i :: 0 <= i < |Mined(chain)| ==> Names(c, Mined(chain)[i], i)
  }

  /** Another transaction took the nonce of the one `h` names. */
  ghost predicate Lost(c: Ctx, chain: Chain, h: Hash) {
    exists n: nat :: Names(c, h, n) && n < |Mined(chain)| && Mined(chain)[n] != h
  }

  ghost predicate Settled(c: Ctx, chain: Chain, h: Hash) {
    h in Mined(chain) || Lost(c, chain, h)
  }

  ghost predicate OpsOk(c: Ctx, store: Store, marked: set<Hash>, ops: seq<Op>) {
    forall i :: 0 <= i < |ops| ==>
      && ops[i].tx in c.txs
      && (ops[i].stage.NeedMarker? || ops[i].stage.NeedWaiter? ==> Known(c, store, c.sign(ops[i].tx)))
      && (ops[i].stage.NeedWaiter? ==> c.sign(ops[i].tx) in marked)
  }

  /** A waiter with a verdict waits for a transaction whose receipt or cancellation was reported. */
  ghost predicate WaiterOk(c: Ctx, store: Store, marked: set<Hash>, reported: set<Hash>, m: M.State, x: Waiter) {
    && Known(c, store, x.hash) && x.hash in marked
    && (x.wait.Listening? ==> x.wait.id < |m.entries| && m.entries[x.wait.id].watch.txHash == x.hash)
    && (x.wait.Verdict? ==> x.hash in reported)
  }

  ghost predicate WaitersOk(c: Ctx, store: Store, marked: set<Hash>, reported: set<Hash>, m: M.State,
                            waiters: seq<Waiter>)
  {
    forall j :: 0 <= j < |waiters| ==> WaiterOk(c, store, marked, reported, m, waiters[j])
  }

  /** The watch carries the nonce of the transaction it names, and what it was sent was reported. */
  ghost predicate EntryOk(c: Ctx, confirmed: set<Hash>, cancelled: set<Hash>, e: M.Entry) {
    && Names(c, e.watch.txHash, e.watch.nonce)
    && (e.receiptC != [] ==> e.watch.txHash in confirmed)
    && (M.TransactionCancelled in e.errC ==> e.watch.txHash in cancelled)
  }

  ghost predicate WatchesOk(c: Ctx, confirmed: set<Hash>, cancelled: set<Hash>, m: M.State) {
    forall i :: 0 <= i < |m.entries| ==> EntryOk(c, confirmed, cancelled, m.entries[i])
  }

  /** A marker that is gone belongs to a transaction whose receipt or cancellation was reported. */
  ghost predicate MarkedOk(c: Ctx, store: Store, marked: set<Hash>, reported: set<Hash>) {
    && PendingHashes(store) <= marked
    && forall h :: h in marked ==> Known(c, store, h) && (h in PendingHashes(store) || h in reported)
  }

  ghost predicate ReportsOk(c: Ctx, chain: Chain, confirmed: set<Hash>, cancelled: set<Hash>) {
    && (forall h :: h in confirmed ==> h in Mined(chain))
    && (forall h :: h in cancelled ==> Lost(c, chain, h))
  }

  ghost predicate LineageOk(c: Ctx, lineage: set<(Tx, Tx)>) {
    forall p :: p in lineage ==>
      p.0 in c.txs && p.1 in c.txs && p.0.nonce == p.1.nonce && p.0.gasPrice > p.1.gasPrice
  }

  /** What the monitor has ever reported, over all restarts. */
  function Reported(w: World): set<Hash> {
    w.confirmed + w.cancelled
  }

  ghost predicate Inv(w: World) {
    && Collisionless(w.c) && M.Inv(w.mon) && ChainOk(w.c, w.mon.chain)
    && StoreOk(w.c, w.store)
    && OpsOk(w.c, w.store, w.marked, w.ops)
    && WaitersOk(w.c, w.store, w.marked, Reported(w), w.mon.m, w.waiters)
    && WatchesOk(w.c, w.confirmed, w.cancelled, w.mon.m)
    && MarkedOk(w.c, w.store, w.marked, Reported(w))
    && ReportsOk(w.c, w.mon.chain, w.confirmed, w.cancelled)
    && LineageOk(w.c, w.lineage)
  }

  lemma SettledGrows(c: Ctx, a: Chain, b: Chain, h: Hash)
    requires a <= b
    ensures Lost(c, a, h) ==> Lost(c, b, h)
    ensures h in Mined(a) ==> h in Mined(b)
  {
    MinedGrows(a, b);
    if Lost(c, a, h) {
      var n: nat :| Names(c, h, n) && n < |Mined(a)| && Mined(a)[n] != h;
      assert Mined(b)[n] == Mined(a)[n];
    }
  }

  lemma StepMine(w: World, st: Step)
    requires Inv(w) && st.Mine? && Enabled(w, st)
    ensures Inv(Apply(w, st))
  {
    var w' := Apply(w, st);
    var a, b := w.mon.chain, w'.mon.chain;
    M.StepKeepsInv(w.mon, M.Mine(Signed(w.c, st.txs)));
    forall h ensures (Lost(w.c, a, h) ==> Lost(w.c, b, h)) && (h in Mined(a) ==> h in Mined(b)) {
      SettledGrows(w.c, a, b, h);
    }
    ChainGrows(w.c, a, st.txs);
  }

  lemma ChainGrows(c: Ctx, chain: Chain, txs: seq<Tx>)
    requires ChainOk(c, chain) && Consecutive(c, txs, |Mined(chain)|)
    ensures ChainOk(c, chain + [Signed(c, txs)])
  {
  }

  lemma CancelledIsLost(w: World, i: nat, block: nat)
    requires Inv(w) && i < |w.mon.m.entries|
    requires M.Grounds(w.mon.chain, w.mon.depth, w.mon.m.entries[i].watch, block)
    ensures Lost(w.c, w.mon.chain, w.mon.m.entries[i].watch.txHash)
  {
    M.GroundsMeanLost(w.mon.chain, w.mon.depth, w.mon.m.entries[i].watch, block);
    assert Names(w.c, w.mon.m.entries[i].watch.txHash, w.mon.m.entries[i].watch.nonce);
  }

  lemma WaitersFrame(w: World, w': World)
    requires Inv(w) && M.Later(w.mon, w'.mon) && Reported(w) <= Reported(w')
    ensures WaitersOk(w.c, w.store, w.marked, Reported(w'), w'.mon.m, w.waiters)
  {
    forall j | 0 <= j < |w.waiters| ensures WaiterOk(w.c, w.store, w.marked, Reported(w'), w'.mon.m, w.waiters[j]) {
      var x := w.waiters[j];
      if x.wait.Listening? {
        assert M.EntryLater(w.mon.m.entries[x.wait.id], w'.mon.m.entries[x.wait.id]);
      }
    }
  }

  /** What delivery sends is what it reports. */
  lemma DeliveryReported(w: World)
    requires Inv(w) && w.mon.phase.Decided?
    ensures var w' := ApplyMonitor(w, M.Deliver); WatchesOk(w.c, w'.confirmed, w'.cancelled, w'.mon.m)
  {
    var w', p := ApplyMonitor(w, M.Deliver), w.mon.phase;
    forall i | 0 <= i < |w'.mon.m.entries| ensures EntryOk(w.c, w'.confirmed, w'.cancelled, w'.mon.m.entries[i]) {
      var e := w.mon.m.entries[i];
      assert w'.mon.m.entries[i] == M.NotifiedEntry(e, i, p.confirmed, p.cancelled);
      assert EntryOk(w.c, w.confirmed, w.cancelled, e);
    }
  }

  /** Other steps of the monitor send no verdict. */
  lemma NoVerdictOtherwise(w: World, st: M.Step)
    requires Inv(w) && M.Enabled(w.mon, st) && !st.Deliver? && !st.Watching?
    ensures WatchesOk(w.c, w.confirmed, w.cancelled, M.Apply(w.mon, st).m)
  {
    var m := M.Apply(w.mon, st).m;
    forall i | 0 <= i < |m.entries| ensures EntryOk(w.c, w.confirmed, w.cancelled, m.entries[i]) {
      assert EntryOk(w.c, w.confirmed, w.cancelled, w.mon.m.entries[i]);
      if st.Close? {
        assert m.entries[i] == M.ClosedEntry(w.mon.m.entries[i], i in w.mon.m.active);
      }
    }
  }

  lemma ReportsGrow(w: World)
    requires Inv(w) && w.mon.phase.Decided?
    ensures var w' := ApplyMonitor(w, M.Deliver); ReportsOk(w.c, w.mon.chain, w'.confirmed, w'.cancelled)
  {
    forall id | id in w.mon.phase.cancelled ensures Lost(w.c, w.mon.chain, w.mon.m.entries[id].watch.txHash) {
      CancelledIsLost(w, id, w.mon.phase.block);
    }
  }

  lemma StepMonitor(w: World, st: Step)
    requires Inv(w) && st.MonitorStep? && Enabled(w, st)
    ensures Inv(Apply(w, st))
  {
    var w' := Apply(w, st);
    M.StepKeepsInv(w.mon, st.st);
    M.StepLater(w.mon, st.st);
    WaitersFrame(w, w');
    if st.st.Deliver? {
      DeliveryReported(w);
      ReportsGrow(w);
    } else {
      NoVerdictOtherwise(w, st.st);
    }
  }

  lemma StepRegister(w: World, h: Hash)
    requires Inv(w) && Known(w.c, w.store, h)
    ensures Inv(Registered(w, h))
  {
    var st := M.Watching(WatchOf(w.store, h));
    M.StepKeepsInv(w.mon, st);
    M.StepLater(w.mon, st);
    assert Names(w.c, h, WatchOf(w.store, h).nonce);
    WaitersFrame(w, Registered(w, h));
  }

  lemma StepCall(w: World, st: Step)
    requires Inv(w) && (st.Send? || st.Cancel?) && Enabled(w, st)
    ensures Inv(Apply(w, st))
  {
    var w' := Apply(w, st);
    assert OpsOk(w.c, w.store, w.marked, w'.ops) && LineageOk(w.c, w'.lineage);
  }

  ghost predicate KnownKept(c: Ctx, a: Store, b: Store) {
    forall h :: Known(c, a, h) ==> Known(c, b, h)
  }

  /** A change of the store that forgets no transaction leaves the waiters and other calls in order. */
  lemma StoreChange(w: World, store: Store, marked: set<Hash>, i: nat, stage: Stage)
    requires Inv(w) && i < |w.ops| && StoreOk(w.c, store) && KnownKept(w.c, w.store, store)
    requires w.marked <= marked && MarkedOk(w.c, store, marked, Reported(w))
    requires stage.NeedMarker? || stage.NeedWaiter? ==> Known(w.c, store, w.c.sign(w.ops[i].tx))
    requires stage.NeedWaiter? ==> w.c.sign(w.ops[i].tx) in marked
    ensures OpsOk(w.c, store, marked, w.ops[i := w.ops[i].(stage := stage)])
    ensures WaitersOk(w.c, store, marked, Reported(w), w.mon.m, w.waiters)
  {
    forall j | 0 <= j < |w.waiters| ensures WaiterOk(w.c, store, marked, Reported(w), w.mon.m, w.waiters[j]) {
      assert WaiterOk(w.c, w.store, w.marked, Reported(w), w.mon.m, w.waiters[j]);
    }
  }

  lemma StoreChanged(w: World, store: Store, marked: set<Hash>, i: nat, stage: Stage)
    requires Inv(w) && i < |w.ops| && StoreOk(w.c, store) && KnownKept(w.c, w.store, store)
    requires w.marked <= marked && MarkedOk(w.c, store, marked, Reported(w))
    requires stage.NeedMarker? || stage.NeedWaiter? ==> Known(w.c, store, w.c.sign(w.ops[i].tx))
    requires stage.NeedWaiter? ==> w.c.sign(w.ops[i].tx) in marked
    ensures Inv(w.(store := store, marked := marked, ops := w.ops[i := w.ops[i].(stage := stage)]))
  {
    StoreChange(w, store, marked, i, stage);
  }

  lemma MarkedKept(c: Ctx, a: Store, b: Store, marked: set<Hash>, reported: set<Hash>)
    requires MarkedOk(c, a, marked, reported) && KnownKept(c, a, b) && PendingHashes(a) == PendingHashes(b)
    ensures MarkedOk(c, b, marked, reported)
  {
  }

  lemma WriteNonce(w: World, i: nat, created: int, description: string)
    requires Inv(w) && i < |w.ops| && w.ops[i].stage.NeedNonce?
    ensures Inv(ApplyWrite(w, i, true, created, description))
  {
    var store := PutNonce(w.store, w.sender, w.ops[i].tx.nonce + 1);
    PutNonceOk(w.c, w.store, w.sender, w.ops[i].tx.nonce + 1);
    MarkedKept(w.c, w.store, store, w.marked, Reported(w));
    StoreChanged(w, store, w.marked, i, NeedStored);
    assert ApplyWrite(w, i, true, created, description) ==
           w.(store := store, marked := w.marked, ops := w.ops[i := w.ops[i].(stage := NeedStored)]);
  }

  lemma WriteStored(w: World, i: nat, created: int, description: string)
    requires Inv(w) && i < |w.ops| && w.ops[i].stage.NeedStored?
    ensures Inv(ApplyWrite(w, i, true, created, description))
  {
    var tx := w.ops[i].tx;
    var store := PutStored(w.store, w.c.sign(tx), StoredTx(tx, created, description));
    PutStoredOk(w.c, w.store, tx, created, description);
    MarkedKept(w.c, w.store, store, w.marked, Reported(w));
    StoreChanged(w, store, w.marked, i, NeedMarker);
    assert ApplyWrite(w, i, true, created, description) ==
           w.(store := store, marked := w.marked, ops := w.ops[i := w.ops[i].(stage := NeedMarker)]);
  }

  lemma MarkedOneMore(c: Ctx, store: Store, marked: set<Hash>, reported: set<Hash>, h: Hash)
    requires StoreOk(c, store) && Known(c, store, h) && MarkedOk(c, store, marked, reported)
    ensures var s := PutMarker(store, h);
            StoreOk(c, s) && KnownKept(c, store, s) && MarkedOk(c, s, marked + {h}, reported)
  {
    PutMarkerOk(c, store, h);
  }

  lemma WriteMarker(w: World, i: nat, created: int, description: string)
    requires Inv(w) && i < |w.ops| && w.ops[i].stage.NeedMarker?
    ensures Inv(ApplyWrite(w, i, true, created, description))
  {
    var h := w.c.sign(w.ops[i].tx);
    MarkedOneMore(w.c, w.store, w.marked, Reported(w), h);
    StoreChanged(w, PutMarker(w.store, h), w.marked + {h}, i, NeedWaiter);
  }

  lemma CallOver(w: World, i: nat)
    requires Inv(w) && i < |w.ops|
    ensures Inv(w.(ops := w.ops[i := w.ops[i].(stage := Over)]))
  {
    StoreChange(w, w.store, w.marked, i, Over);
  }

  lemma StepWrite(w: World, st: Step)
    requires Inv(w) && st.Write? && Enabled(w, st)
    ensures Inv(ApplyWrite(w, st.op, st.ok, st.created, st.description))
  {
    if !st.ok {
      CallOver(w, st.op);
    } else {
      match w.ops[st.op].stage
      case NeedNonce => WriteNonce(w, st.op, st.created, st.description);
      case NeedStored => WriteStored(w, st.op, st.created, st.description);
      case NeedMarker => WriteMarker(w, st.op, st.created, st.description);
    }
  }

  lemma WaiterMoves(w: World, j: nat, wait: Wait)
    requires Inv(w) && j < |w.waiters|
    requires WaiterOk(w.c, w.store, w.marked, Reported(w), w.mon.m, w.waiters[j].(wait := wait))
    ensures Inv(w.(waiters := SetWait(w.waiters, j, wait)))
  {
  }

  lemma WaiterAdded(w: World, h: Hash)
    requires Inv(w) && Known(w.c, w.store, h) && h in w.marked
    ensures Inv(w.(waiters := w.waiters + [Waiter(h, Starting)]))
  {
  }

  lemma StepWaiter(w: World, st: Step)
    requires Inv(w) && (st.Spawn? || st.WaiterWatches? || st.WaiterGivesUp?) && Enabled(w, st)
    ensures Inv(Apply(w, st))
  {
    if st.Spawn? {
      CallOver(w, st.op);
      WaiterAdded(w.(ops := w.ops[st.op := w.ops[st.op].(stage := Over)]), w.c.sign(w.ops[st.op].tx));
    } else if st.WaiterGivesUp? || !st.ok {
      WaiterMoves(w, st.w, Ended);
    } else {
      StepRegister(w, w.waiters[st.w].hash);
      WaiterMoves(Registered(w, w.waiters[st.w].hash), st.w, Listening(|w.mon.m.entries|));
    }
  }

  lemma StepHears(w: World, st: Step)
    requires Inv(w) && st.WaiterHears? && Enabled(w, st)
    ensures Inv(Apply(w, st))
  {
    var e := w.mon.m.entries[w.waiters[st.w].wait.id];
    assert EntryOk(w.c, w.confirmed, w.cancelled, e);
    WaiterMoves(w, st.w, if e.receiptC != [] || M.TransactionCancelled in e.errC then Verdict else Ended);
  }

  lemma StepDeletes(w: World, st: Step)
    requires Inv(w) && st.WaiterDeletes? && Enabled(w, st)
    ensures Inv(Apply(w, st))
  {
    WaiterMoves(w, st.w, Ended);
    if st.ok {
      MarkerDeleted(w.(waiters := SetWait(w.waiters, st.w, Ended)), w.waiters[st.w].hash);
    }
  }

  lemma MarkerDeleted(w: World, h: Hash)
    requires Inv(w) && |h.bytes| == 32 && h in Reported(w)
    ensures Inv(w.(store := DeleteMarker(w.store, h)))
  {
    var store := DeleteMarker(w.store, h);
    DeleteMarkerOk(w.c, w.store, h);
    forall j | 0 <= j < |w.waiters| ensures WaiterOk(w.c, store, w.marked, Reported(w), w.mon.m, w.waiters[j]) {
      assert WaiterOk(w.c, w.store, w.marked, Reported(w), w.mon.m, w.waiters[j]);
    }
  }

  lemma StepCrashRestart(w: World, st: Step)
    requires Inv(w) && (st.Crash? || st.Restart?) && Enabled(w, st)
    ensures Inv(Apply(w, st))
  {
    forall h | h in PendingHashes(w.store) ensures Known(w.c, w.store, h) {
      PendingIsKnown(w.c, w.store, h);
    }
  }

  lemma StepKeepsInv(w: World, st: Step)
    requires Inv(w) && Enabled(w, st)
    ensures Inv(Apply(w, st))
  {
    match st
    case Mine(_) => StepMine(w, st);
    case MonitorStep(_) => StepMonitor(w, st);
    case WatchSent(h) => StepRegister(w, h);
    case Write(_, _, _, _) => StepWrite(w, st);
    case WaiterHears(_) => StepHears(w, st);
    case WaiterDeletes(_, _) => StepDeletes(w, st);
    case Crash => StepCrashRestart(w, st);
    case Restart(_) => StepCrashRestart(w, st);
    case Send(_) => StepCall(w, st);
    case Cancel(_, _) => StepCall(w, st);
    case _ => StepWaiter(w, st);
  }

  // ---------------------------------------------------------------- whole runs

  ghost predicate Init(w: World) {
    && Collisionless(w.c) && M.Init(w.mon) && ChainOk(w.c, w.mon.chain)
    && StoreOk(w.c, w.store) && PendingHashes(w.store) == {}
    && !w.up && w.ops == [] && w.waiters == []
    && w.marked == {} && w.confirmed == {} && w.cancelled == {} && w.lineage == {}
  }

  ghost predicate Run(ws: seq<World>, sts: seq<Step>) {
    && |ws| == |sts| + 1 && Init(ws[0])
    && forall i {:trigger sts[i]} :: 0 <= i < |sts| ==> Enabled(ws[i], sts[i]) && ws[i + 1] == Apply(ws[i], sts[i])
  }

  lemma {:induction false} RunInv(ws: seq<World>, sts: seq<Step>, k: nat)
    requires Run(ws, sts) && k < |ws|
    ensures Inv(ws[k])
  {
    if k > 0 {
      RunInv(ws, sts, k - 1);
      StepKeepsInv(ws[k - 1], sts[k - 1]);
    }
  }

  /** What no step takes back. */
  ghost predicate Later(w: World, w': World) {
    && w.c == w'.c && w.mon.chain <= w'.mon.chain
    && w.marked <= w'.marked && w.confirmed <= w'.confirmed && w.cancelled <= w'.cancelled && w.lineage <= w'.lineage
  }

  lemma StepLater(w: World, st: Step)
    requires Enabled(w, st)
    ensures Later(w, Apply(w, st))
  {
    if st.MonitorStep? {
      M.StepLater(w.mon, st.st);
    }
  }

  lemma RunStepLater(ws: seq<World>, sts: seq<Step>, k: nat)
    requires Run(ws, sts) && k < |sts|
    ensures Later(ws[k], ws[k + 1])
  {
    StepLater(ws[k], sts[k]);
  }

  lemma {:induction false} RunLater(ws: seq<World>, sts: seq<Step>, j: nat, k: nat)
    requires Run(ws, sts) && j <= k < |ws|
    ensures Later(ws[j], ws[k])
    decreases k - j
  {
    if j < k {
      RunLater(ws, sts, j, k - 1);
      RunStepLater(ws, sts, k - 1);
    }
  }

  /** Whenever a transaction once marked pending has no marker any more, however many crashes and
      restarts lie between, its receipt or its cancellation has been reported. */
  lemma MarkerGoneMeansReported(ws: seq<World>, sts: seq<Step>, j: nat, k: nat, h: Hash)
    requires Run(ws, sts) && j <= k < |ws|
    requires h in ws[j].marked && PendingKey(h) !in ws[k].store
    ensures h in ws[k].confirmed || h in ws[k].cancelled
  {
    RunLater(ws, sts, j, k);
    RunInv(ws, sts, k);
    if h in PendingHashes(ws[k].store) {
      PendingIsKnown(ws[k].c, ws[k].store, h);
    }
  }

  /** So it is mined, or another transaction has taken its nonce. */
  lemma MarkerGoneMeansSettled(ws: seq<World>, sts: seq<Step>, j: nat, k: nat, h: Hash)
    requires Run(ws, sts) && j <= k < |ws|
    requires h in ws[j].marked && PendingKey(h) !in ws[k].store
    ensures Settled(ws[k].c, ws[k].mon.chain, h)
  {
    MarkerGoneMeansReported(ws, sts, j, k, h);
    RunInv(ws, sts, k);
  }

  /** The one step that removes a marker is that of a waiter for it that has heard a verdict, and the
      receipt or the cancellation was reported before. The end of the monitor, of a context or of the
      process removes none. */
  lemma OnlyVerdictDeletes(ws: seq<World>, sts: seq<Step>, k: nat, h: Hash)
    requires Run(ws, sts) && k < |sts| && |h.bytes| == 32
    requires PendingKey(h) in ws[k].store && PendingKey(h) !in ws[k + 1].store
    ensures sts[k].WaiterDeletes? && sts[k].w < |ws[k].waiters|
    ensures var x := ws[k].waiters[sts[k].w]; x.hash == h && x.wait.Verdict? && h in Reported(ws[k])
  {
    RunInv(ws, sts, k);
    assert Enabled(ws[k], sts[k]) && ws[k + 1] == Apply(ws[k], sts[k]);
    WaiterDeleted(ws[k], sts[k], PendingKey(h));
    var x := ws[k].waiters[sts[k].w];
    assert WaiterOk(ws[k].c, ws[k].store, ws[k].marked, Reported(ws[k]), ws[k].mon.m, x);
    ParsePrintPending(h);
    ParsePrintPending(x.hash);
  }

  lemma WaiterDeleted(w: World, st: Step, key: string)
    requires Enabled(w, st) && key in w.store && key !in Apply(w, st).store
    ensures st.WaiterDeletes? && key == PendingKey(w.waiters[st.w].hash)
  {
  }

  /** A waiter that hears a receipt or a cancellation and whose deletion does not fail does remove the
      marker, and no other. */
  lemma VerdictDeletes(ws: seq<World>, sts: seq<Step>, k: nat, h: Hash)
    requires Run(ws, sts) && k + 1 < |sts| && sts[k].WaiterHears? && sts[k + 1] == WaiterDeletes(sts[k].w, true)
    requires sts[k].w < |ws[k].waiters| && ws[k].waiters[sts[k].w].hash == h
    ensures ws[k + 2].store == ws[k].store - {PendingKey(h)}
  {
    assert Enabled(ws[k], sts[k]) && ws[k + 1] == Apply(ws[k], sts[k]);
    assert ws[k + 2] == Apply(ws[k + 1], sts[k + 1]);
  }

  /** Hearing a receipt or a cancellation is a verdict, and nothing else is. */
  lemma HearsVerdictIff(ws: seq<World>, sts: seq<Step>, k: nat)
    requires Run(ws, sts) && k < |sts| && sts[k].WaiterHears?
    ensures sts[k].w < |ws[k].waiters| && ws[k].waiters[sts[k].w].wait.Listening?
    ensures var id := ws[k].waiters[sts[k].w].wait.id;
            && id < |ws[k].mon.m.entries| && sts[k].w < |ws[k + 1].waiters|
            && (ws[k + 1].waiters[sts[k].w].wait.Verdict? <==>
                ws[k].mon.m.entries[id].receiptC != [] || M.TransactionCancelled in ws[k].mon.m.entries[id].errC)
  {
    assert Enabled(ws[k], sts[k]) && ws[k + 1] == Apply(ws[k], sts[k]);
  }

  /** A send whose three writes succeed leaves the transaction stored and marked, the next nonce stored,
      and a waiter for it. */
  lemma SendLeaves(w: World, tx: Tx, created: int, description: string)
    requires Inv(w) && w.up && tx in w.c.txs
    ensures var i, h := |w.ops|, w.c.sign(tx);
            var w1 := Apply(w, Send(tx));
            var w2 := ApplyWrite(w1, i, true, 0, "");
            var w4 := ApplyWrite(ApplyWrite(w2, i, true, created, description), i, true, 0, "");
            && Enabled(w4, Spawn(i)) && Apply(w4, Spawn(i)).waiters == w.waiters + [Waiter(h, Starting)]
            && w4.store == w.store[NonceKey(w.sender) := NextNonce(tx.nonce + 1)]
                                  [StoredKey(h) := StoredTx(tx, created, description)][PendingKey(h) := Marker]
  {
  }

  /** A cancellation whose two writes succeed leaves the new transaction stored and marked, and a waiter. */
  lemma CancelLeaves(w: World, original: Hash, gas: Option<nat>, created: int, description: string)
    requires Inv(w) && Enabled(w, Cancel(original, gas))
    ensures var i, tx := |w.ops|, Cancellation(w.store[StoredKey(original)].tx, w.sender, gas).value;
            var h := w.c.sign(tx);
            var w1 := Apply(w, Cancel(original, gas));
            var w3 := ApplyWrite(ApplyWrite(w1, i, true, created, description), i, true, 0, "");
            && Enabled(w3, Spawn(i)) && Apply(w3, Spawn(i)).waiters == w.waiters + [Waiter(h, Starting)]
            && w3.store == w.store[StoredKey(h) := StoredTx(tx, created, description)][PendingKey(h) := Marker]
            && (tx, w.store[StoredKey(original)].tx) in w1.lineage
  {
  }

  /** A waiter whose transaction can be read listens to a new watch for its hash and nonce. */
  lemma WaiterListens(w: World, j: nat)
    requires Inv(w) && Enabled(w, WaiterWatches(j, true))
    ensures var w', h := Apply(w, WaiterWatches(j, true)), w.waiters[j].hash;
            && w'.waiters[j] == Waiter(h, Listening(|w.mon.m.entries|)) && Known(w.c, w.store, h)
            && w'.mon.m.entries == w.mon.m.entries + [M.Entry(M.Watch(h, w.store[StoredKey(h)].tx.nonce), [], [])]
            && |w.mon.m.entries| in w'.mon.m.active
  {
    assert WaiterOk(w.c, w.store, w.marked, Reported(w), w.mon.m, w.waiters[j]);
  }

  /** A restart waits for exactly the hashes whose markers survived. */
  lemma RestartRewatches(ws: seq<World>, sts: seq<Step>, k: nat, h: Hash)
    requires Run(ws, sts) && k < |sts| && sts[k].Restart? && |h.bytes| == 32
    ensures Waiter(h, Starting) in ws[k + 1].waiters <==> PendingKey(h) in ws[k].store
    ensures forall x :: x in ws[k + 1].waiters ==> x.wait.Starting?
  {
    RunInv(ws, sts, k);
    var w, order := ws[k], sts[k].order;
    assert ws[k + 1] == Apply(w, sts[k]);
    ParsePrintPending(h);
    if PendingKey(h) in w.store {
      assert PENDING_PREFIX <= PendingKey(h);
      assert h in PendingHashes(w.store);
      var i :| 0 <= i < |order| && order[i] == h;
      assert ws[k + 1].waiters[i] == Waiter(h, Starting);
    }
    if Waiter(h, Starting) in ws[k + 1].waiters {
      assert h in order;
      assert h in PendingHashes(w.store);
      PendingIsKnown(w.c, w.store, h);
    }
  }

  lemma MinedAtNonce(c: Ctx, chain: Chain, h: Hash, n: nat)
    requires Collisionless(c) && ChainOk(c, chain) && h in Mined(chain) && Names(c, h, n)
    ensures n < |Mined(chain)| && Mined(chain)[n] == h
  {
  }

  lemma ConfirmedAtNonce(ws: seq<World>, sts: seq<Step>, j: nat, h: Hash, n: nat)
    requires Run(ws, sts) && j < |ws| && h in ws[j].confirmed && Names(ws[0].c, h, n)
    ensures var chain := ws[|ws| - 1].mon.chain; n < |Mined(chain)| && Mined(chain)[n] == h
  {
    var last := |ws| - 1;
    RunLater(ws, sts, j, last);
    RunLater(ws, sts, 0, last);
    RunInv(ws, sts, last);
    MinedAtNonce(ws[last].c, ws[last].mon.chain, h, n);
  }

  /** Of all transactions with one nonce, at most one is ever reported confirmed in the whole run. */
  lemma AtMostOneConfirmed(ws: seq<World>, sts: seq<Step>, j: nat, k: nat, h: Hash, g: Hash, n: nat)
    requires Run(ws, sts) && j < |ws| && k < |ws| && h in ws[j].confirmed && g in ws[k].confirmed
    requires Names(ws[0].c, h, n) && Names(ws[0].c, g, n)
    ensures h == g
  {
    ConfirmedAtNonce(ws, sts, j, h, n);
    ConfirmedAtNonce(ws, sts, k, g, n);
  }

  /** A transaction reported cancelled is at no time of the run mined, nor reported confirmed. */
  lemma CancelledStaysUnmined(ws: seq<World>, sts: seq<Step>, j: nat, k: nat, h: Hash)
    requires Run(ws, sts) && j < |ws| && k < |ws| && h in ws[j].cancelled
    ensures h !in Mined(ws[k].mon.chain) && h !in ws[k].confirmed
  {
    var last := |ws| - 1;
    RunLater(ws, sts, j, last);
    RunLater(ws, sts, k, last);
    RunInv(ws, sts, last);
    var c, chain := ws[last].c, ws[last].mon.chain;
    SettledGrows(c, ws[k].mon.chain, chain, h);
    if h in Mined(chain) {
      var n: nat :| Names(c, h, n) && n < |Mined(chain)| && Mined(chain)[n] != h;
      MinedAtNonce(c, chain, h, n);
    }
  }

  /** `p` starts at an original and goes on to a cancellation of each transaction before. */
  ghost predicate CancellationChain(lineage: set<(Tx, Tx)>, p: seq<Tx>) {
    forall i {:trigger p[i]} :: 0 <= i < |p| - 1 ==> (p[i + 1], p[i]) in lineage
  }

  lemma {:induction false} ChainRises(c: Ctx, lineage: set<(Tx, Tx)>, p: seq<Tx>, a: nat, b: nat)
    requires LineageOk(c, lineage) && CancellationChain(lineage, p) && a < b < |p|
    ensures p[a].nonce == p[b].nonce && p[a].gasPrice < p[b].gasPrice && p[a] in c.txs && p[b] in c.txs
    decreases b
  {
    assert (p[b - 1 + 1], p[b - 1]) in lineage;
    if a < b - 1 {
      ChainRises(c, lineage, p, a, b - 1);
    }
  }

  /** Repeated cancellation keeps the nonce and raises the gas price at each link, and at most one
      transaction of such a chain is ever reported confirmed. */
  lemma CancellationsExclusive(ws: seq<World>, sts: seq<Step>, k: nat, p: seq<Tx>, a: nat, b: nat)
    requires Run(ws, sts) && k < |ws| && CancellationChain(ws[k].lineage, p) && a < b < |p|
    ensures p[a].nonce == p[b].nonce && p[a].gasPrice < p[b].gasPrice
    ensures !(ws[k].c.sign(p[a]) in ws[k].confirmed && ws[k].c.sign(p[b]) in ws[k].confirmed)
  {
    RunInv(ws, sts, k);
    ChainRises(ws[k].c, ws[k].lineage, p, a, b);
    OneConfirmedPerNonce(ws[k].c, ws[k].mon.chain, ws[k].confirmed, p[a], p[b]);
  }

  lemma OneConfirmedPerNonce(c: Ctx, chain: Chain, confirmed: set<Hash>, t: Tx, u: Tx)
    requires Collisionless(c) && ChainOk(c, chain) && (forall h :: h in confirmed ==> h in Mined(chain))
    requires t in c.txs && u in c.txs && t != u && t.nonce == u.nonce
    ensures !(c.sign(t) in confirmed && c.sign(u) in confirmed)
  {
  }

  // ---------------------------------------------------------------- the code

  /** How each call into the backend, the signer and the store ends. */
  datatype SendIo = SendIo(nonce: Option<nat>, estimate: Option<nat>, suggested: Option<nat>,
                           signed: bool, sent: bool, putNonce: bool, putStored: bool, putMarker: bool, now: int)

  /** The transaction a request becomes, if nothing fails before it is broadcast. */
  function SendTx(req: Request, io: SendIo): Option<Tx> {
    if io.nonce.None? || (req.gasLimit == 0 && io.estimate.None?) || (req.gasPrice.None? && io.suggested.None?)
       || !io.signed || !io.sent then None
    else Some(Prepare(req, if io.estimate.Some? then io.estimate.value else 0,
                      if io.suggested.Some? then io.suggested.value else 0, io.nonce.value))
  }

  /** The store after the first of the three writes that fails, or after all of them. */
  function Written(store: Store, sender: Address, h: Hash, v: Value, n: nat, io: SendIo): Store {
    if !io.putNonce then store
    else
      var s1 := PutNonce(store, sender, n);
      if !io.putStored then s1
      else
        var s2 := PutStored(s1, h, v);
        if !io.putMarker then s2 else PutMarker(s2, h)
  }

  /** Whichever write fails, no marker is left without its transaction. */
  lemma WrittenOk(c: Ctx, store: Store, sender: Address, tx: Tx, description: string, io: SendIo)
    requires Collisionless(c) && StoreOk(c, store) && tx in c.txs
    ensures StoreOk(c, Written(store, sender, c.sign(tx), StoredTx(tx, io.now, description), tx.nonce + 1, io))
  {
    PutNonceOk(c, store, sender, tx.nonce + 1);
    var s1 := PutNonce(store, sender, tx.nonce + 1);
    PutStoredOk(c, s1, tx, io.now, description);
    PutMarkerOk(c, PutStored(s1, c.sign(tx), StoredTx(tx, io.now, description)), c.sign(tx));
  }

  /** How the node takes a transaction that is sent again. */
  datatype Broadcast = Accepted | Imported | Rejected

  /** The value stored for hash h is the transaction asked for, under the nonce the node gave. */
  predicate SentAsAsked(c: Ctx, v: Value, h: Hash, req: Request, io: SendIo) {
    && v.StoredTx? && h == c.sign(v.tx) && v.description == req.description && v.created == io.now
    && v.tx.to == req.to && v.tx.value == req.value && v.tx.data == req.data
    && io.nonce == Some(v.tx.nonce)
    && (if req.gasPrice.Some? then req.gasPrice else io.suggested) == Some(v.tx.gasPrice)
    && (if req.gasLimit != 0 then v.tx.gasLimit == req.gasLimit
        else io.estimate.Some? && v.tx.gasLimit == (io.estimate.value + io.estimate.value / 5) % TWO64)
  }

  /** The three keys hold what a send writes, and no other key is touched. */
  ghost predicate WroteAll(before: Store, after: Store, sender: Address, h: Hash, v: Value, n: nat) {
    && NonceKey(sender) in after && after[NonceKey(sender)] == NextNonce(n)
    && StoredKey(h) in after && after[StoredKey(h)] == v && PendingKey(h) in after
    && forall k :: k !in {NonceKey(sender), StoredKey(h), PendingKey(h)} ==>
         (k in after <==> k in before) && (k in after ==> after[k] == before[k])
  }

  lemma WrittenHolds(store: Store, sender: Address, h: Hash, v: Value, n: nat, io: SendIo)
    ensures io.putNonce && io.putStored && io.putMarker ==>
              WroteAll(store, Written(store, sender, h, v, n, io), sender, h, v, n)
  {
    KeysApart(h, h, sender);
    assert PENDING_PREFIX <= PendingKey(h);
  }

  /** What ended the wait for a receipt. */
  datatype Ending = GotReceipt | GotCancelled | GotClosed | ContextDone | NotWatched

  class Service {
    const c: Ctx
    const sender: Address
    var store: Store
    var waiting: seq<Hash>      // the waiters started, in order

    /** `NewService` on a store left behind by an earlier process. */
    constructor (c: Ctx, sender: Address, store: Store)
      ensures this.c == c && this.sender == sender && this.store == store
      ensures Elements(waiting) == PendingHashes(store)
      ensures StoreOk(c, store) ==> Distinct(waiting)
      ensures StoreOk(c, store) ==> forall h: Hash :: |h.bytes| == 32 ==> (h in waiting <==> PendingKey(h) in store)
    {
      this.c, this.sender, this.store, waiting := c, sender, store, [];
      new;
      var pending := PendingTransactions();
      for i := 0 to |pending|
        invariant waiting == pending[..i] && this.store == store
      {
        waiting := waiting + [pending[i]];
      }
    }

    method PendingTransactions() returns (hashes: seq<Hash>)
      ensures Elements(hashes) == PendingHashes(store)
      ensures StoreOk(c, store) ==> Distinct(hashes)
      ensures StoreOk(c, store) ==> forall h: Hash :: |h.bytes| == 32 ==> (h in hashes <==> PendingKey(h) in store)
    {
      hashes := [];
      var todo := store.Keys;
      while todo != {}
        invariant todo <= store.Keys
        invariant Elements(hashes) == PendingIn(store.Keys - todo)
        invariant StoreOk(c, store) ==> Distinct(hashes)
        decreases todo
      {
        var key :| key in todo;
        PendingInAdd(c, store, store.Keys - todo, key);
        assert store.Keys - (todo - {key}) == store.Keys - todo + {key};
        todo := todo - {key};
        if PENDING_PREFIX <= key {
          hashes := hashes + [ParsePending(key)];
        }
      }
      assert store.Keys - todo == store.Keys;
      if StoreOk(c, store) {
        forall h: Hash | |h.bytes| == 32 ensures h in hashes <==> PendingKey(h) in store {
          PendingIff(c, store, h);
          assert h in hashes <==> h in Elements(hashes);
        }
      }
    }

    method Send(req: Request, io: SendIo) returns (r: Result<Hash, Error>)
      modifies this
      ensures r.Ok? <==>
                && io.nonce.Some?
                && (req.gasLimit == 0 ==> io.estimate.Some?) && (req.gasPrice.None? ==> io.suggested.Some?)
                && io.signed && io.sent && io.putNonce && io.putStored && io.putMarker
      ensures r.Ok? ==> waiting == old(waiting) + [r.value]
      ensures r.Ok? ==>
                && StoredKey(r.value) in store && SentAsAsked(c, store[StoredKey(r.value)], r.value, req, io)
                && WroteAll(old(store), store, sender, r.value, store[StoredKey(r.value)], io.nonce.value + 1)
      ensures SendTx(req, io).None? ==> r.Err? && store == old(store) && waiting == old(waiting)
      ensures SendTx(req, io).Some? ==>
                var tx := SendTx(req, io).value;
                var h := c.sign(tx);
                && r == (if io.putNonce && io.putStored && io.putMarker then Ok(h) else Err(Other))
                && store == Written(old(store), sender, h, StoredTx(tx, io.now, req.description), tx.nonce + 1, io)
                && waiting == (if r.Ok? then old(waiting) + [h] else old(waiting))
                && (Collisionless(c) && old(StoreOk(c, store)) && tx in c.txs ==> StoreOk(c, store))
    {
      if io.nonce.None? {
        return Err(Other);
      }
      if req.gasLimit == 0 && io.estimate.None? {
        return Err(Other);
      }
      if req.gasPrice.None? && io.suggested.None? {
        return Err(Other);
      }
      var tx := Prepare(req, if io.estimate.Some? then io.estimate.value else 0,
                        if io.suggested.Some? then io.suggested.value else 0, io.nonce.value);
      if !io.signed || !io.sent {
        return Err(Other);
      }
      PreparedAsAsked(req, if io.estimate.Some? then io.estimate.value else 0,
                      if io.suggested.Some? then io.suggested.value else 0, io.nonce.value);
      r := Keep(tx, req.description, io);
    }

    /** The three writes after the broadcast, and the waiter. */
    method Keep(tx: Tx, description: string, io: SendIo) returns (r: Result<Hash, Error>)
      modifies this
      ensures var h := c.sign(tx);
              && r == (if io.putNonce && io.putStored && io.putMarker then Ok(h) else Err(Other))
              && store == Written(old(store), sender, h, StoredTx(tx, io.now, description), tx.nonce + 1, io)
              && waiting == (if r.Ok? then old(waiting) + [h] else old(waiting))
      ensures Collisionless(c) && old(StoreOk(c, store)) && tx in c.txs ==> StoreOk(c, store)
      ensures r.Ok? ==> WroteAll(old(store), store, sender, r.value, StoredTx(tx, io.now, description), tx.nonce + 1)
    {
      var h := c.sign(tx);
      WrittenHolds(store, sender, h, StoredTx(tx, io.now, description), tx.nonce + 1, io);
      if Collisionless(c) && StoreOk(c, store) && tx in c.txs {
        WrittenOk(c, store, sender, tx, description, io);
      }
      if !io.putNonce {
        return Err(Other);
      }
      store := PutNonce(store, sender, tx.nonce + 1);
      if !io.putStored {
        return Err(Other);
      }
      store := PutStored(store, h, StoredTx(tx, io.now, description));
      if !io.putMarker {
        return Err(Other);
      }
      store := PutMarker(store, h);
      waiting := waiting + [h];
      return Ok(h);
    }

    /** Double-spends the nonce of a stored transaction at a higher gas price. */
    method CancelTransaction(original: Hash, gas: Option<nat>, io: SendIo) returns (r: Result<Hash, Error>)
      requires StoreOk(c, store) && Collisionless(c)
      modifies this
      ensures StoredKey(original) !in old(store) ==> r == Err(UnknownTransaction)
      ensures r.Ok? <==>
                && StoredKey(original) in old(store) && io.signed && io.sent && io.putStored && io.putMarker
                && Cancellation(old(store)[StoredKey(original)].tx, sender, gas).Ok?
      ensures r.Err? ==> waiting == old(waiting) && PendingHashes(store) == PendingHashes(old(store))
      ensures r.Err? && !(io.sent && io.putStored) ==> store == old(store)
      ensures StoredKey(original) in old(store) && gas.Some?
              && gas.value <= old(store)[StoredKey(original)].tx.gasPrice ==>
                r == Err(GasPriceTooLow) && store == old(store)
      ensures r.Ok? ==>
                && StoredKey(original) in old(store)
                && waiting == old(waiting) + [r.value]
                && var was := old(store)[StoredKey(original)];
                   var tx := Cancellation(was.tx, sender, gas).value;
                   && r.value == c.sign(tx) && tx.nonce == was.tx.nonce && tx.gasPrice > was.tx.gasPrice
                   && tx.to == Some(sender) && tx.value == 0 && tx.data == [] && tx.gasLimit == 21000
                   && tx.gasPrice == (if gas.Some? then gas.value else was.tx.gasPrice + 1)
                   && store == PutMarker(PutStored(old(store), r.value,
                                                   StoredTx(tx, io.now, was.description + " (cancellation)")), r.value)
                   && (tx in c.txs ==> StoreOk(c, store))
    {
      if StoredKey(original) !in store {
        return Err(UnknownTransaction);
      }
      assert Known(c, store, original);
      var was := store[StoredKey(original)];
      var cancellation := Cancellation(was.tx, sender, gas);
      if cancellation.Err? {
        return Err(cancellation.error);
      }
      if !io.signed || !io.sent {
        return Err(Other);
      }
      var tx := cancellation.value;
      var h := c.sign(tx);
      if !io.putStored {
        return Err(Other);
      }
      KeysApart(h, h, []);
      if tx in c.txs {
        PutStoredOk(c, store, tx, io.now, was.description + " (cancellation)");
      }
      store := PutStored(store, h, StoredTx(tx, io.now, was.description + " (cancellation)"));
      assert PendingHashes(store) == PendingHashes(old(store));
      if !io.putMarker {
        return Err(Other);
      }
      if tx in c.txs {
        PutMarkerOk(c, store, h);
      }
      store := PutMarker(store, h);
      waiting := waiting + [h];
      return Ok(h);
    }

    /** The end of a waiter: the marker goes only on a receipt or a cancellation. */
    method FinishWaiting(h: Hash, ending: Ending, deleted: bool)
      requires StoreOk(c, store) && |h.bytes| == 32
      modifies this`store
      ensures StoreOk(c, store)
      ensures store == if deleted && (ending.GotReceipt? || ending.GotCancelled?) then old(store) - {PendingKey(h)}
                       else old(store)
      ensures PendingHashes(store) ==
              if deleted && (ending.GotReceipt? || ending.GotCancelled?) then PendingHashes(old(store)) - {h}
              else PendingHashes(old(store))
      ensures forall g :: StoredKey(g) in old(store) ==>
                StoredKey(g) in store && store[StoredKey(g)] == old(store)[StoredKey(g)]
    {
      if !ending.GotReceipt? && !ending.GotCancelled? {
        return;
      }
      if deleted {
        DeleteMarkerOk(c, store, h);
        forall g ensures StoredKey(g) != PendingKey(h) {
          KeysApart(g, g, []);
        }
        store := DeleteMarker(store, h);
      }
    }

    /** Rebuilding a stored transaction always gives back its own hash. Of the broadcast's errors only
        "already imported" is passed on. */
    method ResendTransaction(h: Hash, signed: bool, broadcast: Broadcast) returns (r: Result<(), Error>)
      requires StoreOk(c, store)
      ensures r == Err(UnknownTransaction) <==> StoredKey(h) !in store
      ensures r == Err(AlreadyImported) <==> StoredKey(h) in store && signed && broadcast.Imported?
      ensures r == Ok(()) <==> StoredKey(h) in store && signed && !broadcast.Imported?
      ensures r != Err(HashChanged)
    {
      if StoredKey(h) !in store {
        return Err(UnknownTransaction);
      }
      var tx := store[StoredKey(h)].tx;
      if !signed {
        return Err(Other);
      }
      if c.sign(tx) != h {
        return Err(HashChanged);
      }
      if broadcast.Imported? {
        return Err(AlreadyImported);
      }
      return Ok(());
    }
  }
}
