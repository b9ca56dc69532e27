/**
 The sender matcher (transaction/sender_matcher.go): a persisted cache of verifications with
 greylisting in front of a chain of backend checks. The matcher has no lock, so calls interleave
 between reading and writing the cache. Times are seconds.
 */
module SenderMatcher {
  import opened Wrappers
  import opened Ledger
  import opened Keys

  const GREYLIST: nat := 300

  const OVERLAY_PREFIX := "verified_overlay_"

  /** The hash prints as 0x and 64 digits. */
  function PeerOverlayKey(peer: string, h: Hash): string {
    OVERLAY_PREFIX + peer + "_" + "0x" + Hex(h.bytes)
  }

  /** Peers may contain any characters: keys still differ whenever peer or hash do. */
  lemma OverlayKeyInjective(p: string, h: Hash, q: string, g: Hash)
    requires |h.bytes| == 32 && |g.bytes| == 32 && PeerOverlayKey(p, h) == PeerOverlayKey(q, g)
    ensures p == q && h == g
  {
    DecodeOfHex(h.bytes);
    DecodeOfHex(g.bytes);
    var k, n := PeerOverlayKey(p, h), |OVERLAY_PREFIX|;
    assert k == "verified_overlay_" + p + "_0x" + Hex(h.bytes);
    assert k[|k| - 64..] == Hex(h.bytes) && k[|k| - 64..] == Hex(g.bytes);
    assert k[n..|k| - 67] == p && k[n..|k| - 67] == q;
  }

  // ---------------------------------------------------------------- the full check

  type Id = nat

  datatype Header = Header(parent: Id, hash: Id)

  /** `sender` is None when no sender can be derived; `mined` is the block number and hash. */
  datatype TxRec = TxRec(sender: Option<Id>, mined: Option<(nat, Id)>)

  datatype Chain = Chain(txs: map<Hash, TxRec>, headers: seq<Header>)

  /** Blocks are only appended; a transaction keeps its sender and, once mined, its block. */
  ghost predicate Extends(a: Chain, b: Chain) {
    && a.headers <= b.headers && a.txs.Keys <= b.txs.Keys
    && (forall h :: h in a.txs ==>
          b.txs[h].sender == a.txs[h].sender && (a.txs[h].mined.Some? ==> b.txs[h].mined == a.txs[h].mined))
  }

  datatype Error = NotFound | Pending | SenderInvalid | ReceiptMissing | HeaderMissing
                 | BlockHashMismatch | OverlayMismatch | Greylisted | Storage

  datatype Call = Call(tx: Hash, networkID: nat, overlay: string)

  /** Which of the three backend queries fail. */
  datatype Faults = Faults(tx: bool, receipt: bool, header: bool)

  const FAULTLESS := Faults(false, false, false)

  type Overlay = (Id, nat, Id) -> string

  /** Everything `Matches` asks the backend, with no cache. */
  function FullCheck(overlayOf: Overlay, c: Chain, x: Call, f: Faults): Result<Id, Error> {
    if f.tx || x.tx !in c.txs then Err(NotFound)
    else
      var t := c.txs[x.tx];
      if t.mined.None? then Err(Pending)
      else if t.sender.None? then Err(SenderInvalid)
      else if f.receipt then Err(ReceiptMissing)
      else if f.header || t.mined.value.0 + 1 >= |c.headers| then Err(HeaderMissing)
      else
        var next := c.headers[t.mined.value.0 + 1];
        if t.mined.value.1 != next.parent then Err(BlockHashMismatch)
        else if overlayOf(t.sender.value, x.networkID, next.hash) != x.overlay then Err(OverlayMismatch)
        else Ok(next.hash)
  }

  /** The transaction is found, mined, and has a sender. */
  predicate Sent(c: Chain, x: Call, f: Faults) {
    !f.tx && x.tx in c.txs && c.txs[x.tx].mined.Some? && c.txs[x.tx].sender.Some?
  }

  /** Its receipt and the header after its block are found too. */
  predicate Located(c: Chain, x: Call, f: Faults) {
    Sent(c, x, f) && !f.receipt && !f.header && c.txs[x.tx].mined.value.0 + 1 < |c.headers|
  }

  /** The call passes with `b`: the header after the transaction's block names that block as its parent,
      has hash b, and makes the overlay the one presented. */
  predicate Verifies(overlayOf: Overlay, c: Chain, x: Call, f: Faults, b: Id) {
    && Located(c, x, f)
    && c.headers[c.txs[x.tx].mined.value.0 + 1] == Header(c.txs[x.tx].mined.value.1, b)
    && overlayOf(c.txs[x.tx].sender.value, x.networkID, b) == x.overlay
  }

  /** What each refusal means. */
  predicate Refuses(overlayOf: Overlay, c: Chain, x: Call, f: Faults, e: Error) {
    match e
    case NotFound => f.tx || x.tx !in c.txs
    case Pending => !f.tx && x.tx in c.txs && c.txs[x.tx].mined.None?
    case SenderInvalid => !f.tx && x.tx in c.txs && c.txs[x.tx].mined.Some? && c.txs[x.tx].sender.None?
    case ReceiptMissing => Sent(c, x, f) && f.receipt
    case HeaderMissing => Sent(c, x, f) && !f.receipt && !Located(c, x, f)
    case BlockHashMismatch =>
      Located(c, x, f) && c.headers[c.txs[x.tx].mined.value.0 + 1].parent != c.txs[x.tx].mined.value.1
    case OverlayMismatch =>
      && Located(c, x, f) && c.headers[c.txs[x.tx].mined.value.0 + 1].parent == c.txs[x.tx].mined.value.1
      && overlayOf(c.txs[x.tx].sender.value, x.networkID, c.headers[c.txs[x.tx].mined.value.0 + 1].hash) != x.overlay
    case Greylisted => false
    case Storage => false
  }

  /** The check passes with b exactly when the chain bears it out, and refuses exactly with the error
      whose ground holds. */
  lemma FullCheckIff(overlayOf: Overlay, c: Chain, x: Call, f: Faults)
    ensures forall b: Id :: FullCheck(overlayOf, c, x, f) == Ok(b) <==> Verifies(overlayOf, c, x, f, b)
    ensures forall e :: FullCheck(overlayOf, c, x, f) == Err(e) <==> Refuses(overlayOf, c, x, f, e)
  {
  }

  /** On an append-only chain a passed check passes for ever, with the same answer. */
  lemma PassedStaysPassed(overlayOf: Overlay, a: Chain, b: Chain, x: Call, f: Faults)
    requires Extends(a, b) && FullCheck(overlayOf, a, x, f).Ok?
    ensures FullCheck(overlayOf, b, x, FAULTLESS) == FullCheck(overlayOf, a, x, f)
  {
  }

  // ---------------------------------------------------------------- cache lookup and commit

  datatype Entry = Entry(nextBlockHash: Id, verified: bool, timeStamp: nat)

  type Store = map<string, Entry>

  function KeyOf(x: Call): string {
    PeerOverlayKey(x.overlay, x.tx)
  }

  /** The answer from the cache alone, if it has one. */
  function Lookup(store: Store, x: Call, now: nat, getFails: bool): Option<Result<Id, Error>> {
    if getFails then Some(Err(Storage))
    else if KeyOf(x) !in store then None
    else if store[KeyOf(x)].verified then Some(Ok(store[KeyOf(x)].nextBlockHash))
    else if store[KeyOf(x)].timeStamp + GREYLIST > now then Some(Err(Greylisted))
    else None
  }

  /** What a call that asked the backend writes; a failed write replaces the answer. */
  function Commit(store: Store, x: Call, checked: Result<Id, Error>, now: nat, putFails: bool)
    : (Store, Result<Id, Error>)
  {
    if putFails then (store, Err(Storage))
    else
      (store[KeyOf(x) := if checked.Ok? then Entry(checked.value, true, now) else Entry(0, false, now)], checked)
  }

  class Matcher {
    const overlayOf: Overlay
    var storage: Store

    constructor (overlayOf: Overlay)
      ensures this.overlayOf == overlayOf && storage == map[]
    {
      this.overlayOf, storage := overlayOf, map[];
    }

    /** `Matches`, called alone: `now` and `later` are its two readings of the clock. */
    method Matches(x: Call, c: Chain, f: Faults, now: nat, later: nat, getFails: bool, putFails: bool)
      returns (r: Result<Id, Error>, queried: bool)
      modifies this
      // without a fault the backend is asked unless the pair is verified or was marked within five minutes
      ensures queried <==>
                && !getFails
                && (KeyOf(x) in old(storage) ==>
                      !old(storage)[KeyOf(x)].verified && old(storage)[KeyOf(x)].timeStamp + 300 <= now)
      ensures !queried ==> storage == old(storage)
      ensures !queried ==> r == if getFails then Err(Storage)
                                else if old(storage)[KeyOf(x)].verified then Ok(old(storage)[KeyOf(x)].nextBlockHash)
                                else Err(Greylisted)
      ensures queried && putFails ==> storage == old(storage) && r == Err(Storage)
      // otherwise the answer is the check's, and the pair is verified or marked accordingly
      ensures queried && !putFails ==>
                && (forall b: Id :: r == Ok(b) <==> Verifies(overlayOf, c, x, f, b))
                && (r.Err? ==> Refuses(overlayOf, c, x, f, r.error))
                && storage == old(storage)[KeyOf(x) := if r.Ok? then Entry(r.value, true, later)
                                                       else Entry(0, false, later)]
      ensures queried ==> (storage, r) == Commit(old(storage), x, FullCheck(overlayOf, c, x, f), later, putFails)
    {
      FullCheckIff(overlayOf, c, x, f);
      var key := KeyOf(x);
      if getFails {
        return Err(Storage), false;
      }
      if key in storage {
        if storage[key].verified {
          return Ok(storage[key].nextBlockHash), false;
        } else if storage[key].timeStamp + GREYLIST > now {
          return Err(Greylisted), false;
        }
      }
      queried := true;
      if f.tx || x.tx !in c.txs {
        r := Grey(key, later, putFails, NotFound);
        return;
      }
      var t := c.txs[x.tx];
      if t.mined.None? {
        r := Grey(key, later, putFails, Pending);
        return;
      }
      if t.sender.None? {
        r := Grey(key, later, putFails, SenderInvalid);
        return;
      }
      if f.receipt {
        r := Grey(key, later, putFails, ReceiptMissing);
        return;
      }
      if f.header || t.mined.value.0 + 1 >= |c.headers| {
        r := Grey(key, later, putFails, HeaderMissing);
        return;
      }
      var next := c.headers[t.mined.value.0 + 1];
      if t.mined.value.1 != next.parent {
        r := Grey(key, later, putFails, BlockHashMismatch);
        return;
      }
      if overlayOf(t.sender.value, x.networkID, next.hash) != x.overlay {
        r := Grey(key, later, putFails, OverlayMismatch);
        return;
      }
      if putFails {
        r := Err(Storage);
        return;
      }
      storage := storage[key := Entry(next.hash, true, later)];
      r := Ok(next.hash);
    }

    method Grey(key: string, now: nat, putFails: bool, e: Error) returns (r: Result<Id, Error>)
      modifies this
      ensures putFails ==> storage == old(storage) && r == Err(Storage)
      ensures !putFails ==> storage == old(storage)[key := Entry(0, false, now)] && r == Err(e)
    {
      if putFails {
        return Err(Storage);
      }
      storage := storage[key := Entry(0, false, now)];
      return Err(e);
    }
  }

  // ---------------------------------------------------------------- calls in any interleaving

  /** An answer given from a verified entry: `network` is the one it was verified on, `chain` the
      chain when it was given. */
  datatype Hit = Hit(x: Call, hash: Id, network: nat, chain: Chain)

  /** `origin` remembers, per key, the network of the call that wrote the verified entry. */
  datatype World = World(chain: Chain, now: nat, store: Store, flights: seq<Call>,
                         origin: map<string, nat>, hits: seq<Hit>)

  datatype Step =
    | Grow(chain: Chain)
    | Tick(now: nat)
    | Begin(x: Call, getFails: bool)                 // reads the cache
    | Finish(i: nat, f: Faults, putFails: bool)      // asks the backend and writes

  ghost predicate Enabled(w: World, st: Step) {
    match st
    case Grow(c) => Extends(w.chain, c)
    case Tick(t) => w.now <= t
    case Begin(x, _) => |x.tx.bytes| == 32
    case Finish(i, _, _) => i < |w.flights|
  }

  function Apply(overlayOf: Overlay, w: World, st: Step): World
    requires st.Finish? ==> st.i < |w.flights|
  {
    match st
    case Grow(c) => w.(chain := c)
    case Tick(t) => w.(now := t)
    case Begin(x, getFails) =>
      var r := Lookup(w.store, x, w.now, getFails);
      if r.None? then w.(flights := w.flights + [x])
      else if r.value.Ok? && KeyOf(x) in w.origin then
        w.(hits := w.hits + [Hit(x, r.value.value, w.origin[KeyOf(x)], w.chain)])
      else w
    case Finish(i, f, putFails) =>
      var x := w.flights[i];
      var checked := FullCheck(overlayOf, w.chain, x, f);
      w.(store := Commit(w.store, x, checked, w.now, putFails).0,
         origin := if checked.Ok? && !putFails then w.origin[KeyOf(x) := x.networkID] else w.origin,
         flights := w.flights[..i] + w.flights[i + 1..])
  }

  /** A verified entry is what the full check says on the network it was verified on. */
  ghost predicate StoreOk(overlayOf: Overlay, c: Chain, store: Store, origin: map<string, nat>) {
    forall x: Call :: |x.tx.bytes| == 32 && KeyOf(x) in store && store[KeyOf(x)].verified ==>
      && KeyOf(x) in origin
      && FullCheck(overlayOf, c, x.(networkID := origin[KeyOf(x)]), FAULTLESS) == Ok(store[KeyOf(x)].nextBlockHash)
  }

  ghost predicate Inv(overlayOf: Overlay, w: World) {
    && StoreOk(overlayOf, w.chain, w.store, w.origin)
    && (forall x :: x in w.flights ==> |x.tx.bytes| == 32)
    && (forall h :: h in w.hits ==>
          FullCheck(overlayOf, h.chain, h.x.(networkID := h.network), FAULTLESS) == Ok(h.hash))
  }

  lemma StepKeepsInv(overlayOf: Overlay, w: World, st: Step)
    requires Inv(overlayOf, w) && Enabled(w, st)
    ensures Inv(overlayOf, Apply(overlayOf, w, st))
  {
    match st
    case Grow(c) =>
      forall x: Call | |x.tx.bytes| == 32 && KeyOf(x) in w.store && w.store[KeyOf(x)].verified
        ensures FullCheck(overlayOf, c, x.(networkID := w.origin[KeyOf(x)]), FAULTLESS) ==
                Ok(w.store[KeyOf(x)].nextBlockHash)
      {
        PassedStaysPassed(overlayOf, w.chain, c, x.(networkID := w.origin[KeyOf(x)]), FAULTLESS);
      }
    case Finish(i, f, putFails) => FinishKeepsStore(overlayOf, w, i, f, putFails);
    case _ =>
  }

  lemma FinishKeepsStore(overlayOf: Overlay, w: World, i: nat, f: Faults, putFails: bool)
    requires Inv(overlayOf, w) && i < |w.flights|
    ensures var w' := Apply(overlayOf, w, Finish(i, f, putFails)); StoreOk(overlayOf, w.chain, w'.store, w'.origin)
  {
    var y := w.flights[i];
    var w' := Apply(overlayOf, w, Finish(i, f, putFails));
    forall x: Call | |x.tx.bytes| == 32 && KeyOf(x) in w'.store && w'.store[KeyOf(x)].verified
      ensures KeyOf(x) in w'.origin
      ensures FullCheck(overlayOf, w.chain, x.(networkID := w'.origin[KeyOf(x)]), FAULTLESS) ==
              Ok(w'.store[KeyOf(x)].nextBlockHash)
    {
      if KeyOf(x) == KeyOf(y) && !putFails {
        OverlayKeyInjective(x.overlay, x.tx, y.overlay, y.tx);
        assert x.(networkID := y.networkID) == y;
        ExtendsSelf(w.chain);
        PassedStaysPassed(overlayOf, w.chain, w.chain, y, f);
      }
    }
  }

  lemma ExtendsSelf(c: Chain)
    ensures Extends(c, c)
  {
  }

  /** The worlds a sequence of steps passes through. */
  ghost predicate Exec(overlayOf: Overlay, w: World, ws: seq<World>, sts: seq<Step>) {
    && |ws| == |sts| + 1 && ws[0] == w
    && forall i {:trigger sts[i]} :: 0 <= i < |sts| ==>
         Enabled(ws[i], sts[i]) && ws[i + 1] == Apply(overlayOf, ws[i], sts[i])
  }

  /** A run begins with an empty cache, on any chain and at any time. */
  ghost predicate Run(overlayOf: Overlay, ws: seq<World>, sts: seq<Step>) {
    |ws| > 0 && Exec(overlayOf, World(ws[0].chain, ws[0].now, map[], [], map[], []), ws, sts)
  }

  lemma {:induction false} RunInv(overlayOf: Overlay, ws: seq<World>, sts: seq<Step>, k: nat)
    requires Run(overlayOf, ws, sts) && k < |ws|
    ensures Inv(overlayOf, ws[k])
  {
    if k > 0 {
      RunInv(overlayOf, ws, sts, k - 1);
      StepKeepsInv(overlayOf, ws[k - 1], sts[k - 1]);
    }
  }

  /** The overlay of a sender at a block tells networks apart. */
  ghost predicate TellsNetworks(overlayOf: Overlay) {
    forall s, n, m, b :: overlayOf(s, n, b) == overlayOf(s, m, b) ==> n == m
  }

  /** In every interleaving a cached answer equals the full check of the same call if and only if
      the call names the network the entry was verified on: the key does not hold the network. */
  lemma CachedIffSameNetwork(overlayOf: Overlay, ws: seq<World>, sts: seq<Step>, k: nat, i: nat)
    requires Run(overlayOf, ws, sts) && TellsNetworks(overlayOf) && k < |ws| && i < |ws[k].hits|
    ensures var hit := ws[k].hits[i];
            FullCheck(overlayOf, hit.chain, hit.x, FAULTLESS) ==
            if hit.x.networkID == hit.network then Ok(hit.hash) else Err(OverlayMismatch)
  {
    RunInv(overlayOf, ws, sts, k);
    var hit := ws[k].hits[i];
    assert hit in ws[k].hits;
    assert hit.x.networkID == hit.network ==> hit.x == hit.x.(networkID := hit.network);
  }

  /** A run in which a call gets its answer from the cache though the full check refuses its network. */
  lemma WrongNetworkAnswered(overlayOf: Overlay, c: Chain, x: Call, network: nat)
    returns (ws: seq<World>, sts: seq<Step>)
    requires |x.tx.bytes| == 32 && FullCheck(overlayOf, c, x, FAULTLESS).Ok?
    requires TellsNetworks(overlayOf) && network != x.networkID
    ensures Run(overlayOf, ws, sts) && |ws| == 4 && |ws[3].hits| == 1
    ensures var hit := ws[3].hits[0];
            && hit.x == x.(networkID := network) && hit.chain == c
            && FullCheck(overlayOf, c, hit.x, FAULTLESS) == Err(OverlayMismatch)
  {
    var begin, finish, again := Begin(x, false), Finish(0, FAULTLESS, false), Begin(x.(networkID := network), false);
    var w0, w1 := World(c, 0, map[], [], map[], []), World(c, 0, map[], [x], map[], []);
    var w2 := Apply(overlayOf, w1, finish);
    var w3 := Apply(overlayOf, w2, again);
    assert w1.flights == w0.flights + [x];
    ws, sts := [w0, w1, w2, w3], [begin, finish, again];
    CachedIffSameNetwork(overlayOf, ws, sts, 3, 0);
  }

  /** Calls that pass, and overlays that tell networks apart, exist. */
  lemma SomeCallPasses() returns (overlayOf: Overlay, c: Chain, x: Call)
    ensures TellsNetworks(overlayOf) && |x.tx.bytes| == 32 && FullCheck(overlayOf, c, x, FAULTLESS).Ok?
  {
    overlayOf := (sender: Id, network: nat, block: Id) => seq(network, _ => 'n');
    forall s, n, m, b | overlayOf(s, n, b) == overlayOf(s, m, b) ensures n == m {
      assert |overlayOf(s, n, b)| == n && |overlayOf(s, m, b)| == m;
    }
    x := Call(Hash(seq(32, _ => 0)), 1, seq(1, _ => 'n'));
    c := Chain(map[x.tx := TxRec(Some(7), Some((0, 5)))], [Header(4, 5), Header(5, 6)]);
  }

  // ---------------------------------------------------------------- greylisting in any interleaving

  /** The entry for `key` is verified or was written at `t` or later. */
  ghost predicate MarkedSince(w: World, key: string, t: nat) {
    t <= w.now && key in w.store && (w.store[key].verified || w.store[key].timeStamp >= t)
  }

  lemma StepKeepsMark(overlayOf: Overlay, w: World, st: Step, key: string, t: nat)
    requires Enabled(w, st) && MarkedSince(w, key, t)
    ensures MarkedSince(Apply(overlayOf, w, st), key, t)
  {
  }

  /** Once a call asked the backend and left its mark, every later entry for its key is verified or no
      older than that mark, whatever other calls are under way. */
  lemma {:induction false} MarkStays(overlayOf: Overlay, ws: seq<World>, sts: seq<Step>, k: nat, j: nat)
    requires Run(overlayOf, ws, sts) && k < j < |ws| && sts[k].Finish? && !sts[k].putFails
    ensures sts[k].i < |ws[k].flights| && MarkedSince(ws[j], KeyOf(ws[k].flights[sts[k].i]), ws[k].now)
    decreases j
  {
    assert Enabled(ws[k], sts[k]) && ws[k + 1] == Apply(overlayOf, ws[k], sts[k]);
    if k + 1 < j {
      MarkStays(overlayOf, ws, sts, k, j - 1);
      StepKeepsMark(overlayOf, ws[j - 1], sts[j - 1], KeyOf(ws[k].flights[sts[k].i]), ws[k].now);
    }
  }

  /** A call that begins after another left its mark for the same pair asks the backend only five
      minutes later or more, whatever else is under way. */
  lemma QueriesFiveMinutesApart(overlayOf: Overlay, ws: seq<World>, sts: seq<Step>, k: nat, j: nat)
    requires Run(overlayOf, ws, sts) && k < j < |sts|
    requires sts[k].Finish? && sts[k].i < |ws[k].flights| && !sts[k].putFails && sts[j].Begin?
    requires KeyOf(ws[k].flights[sts[k].i]) == KeyOf(sts[j].x)
    requires Lookup(ws[j].store, sts[j].x, ws[j].now, sts[j].getFails).None?
    ensures ws[j].now >= ws[k].now + 300
  {
    MarkStays(overlayOf, ws, sts, k, j);
  }

  // ---------------------------------------------------------------- is a verification final?

  ghost predicate Verified(w: World, key: string) {
    key in w.store && w.store[key].verified
  }

  /** However things go on, the entry stays verified. */
  ghost predicate StaysVerified(overlayOf: Overlay, w: World, key: string) {
    forall ws: seq<World>, sts :: Exec(overlayOf, w, ws, sts) ==> Verified(ws[|ws| - 1], key)
  }

  /** No call for `key` has read the cache and still to write it. */
  predicate NoneInFlight(w: World, key: string) {
    forall x :: x in w.flights ==> KeyOf(x) != key
  }

  lemma StepKeepsVerified(overlayOf: Overlay, w: World, st: Step, key: string)
    requires Enabled(w, st) && Verified(w, key) && NoneInFlight(w, key)
    ensures var w' := Apply(overlayOf, w, st);
            Verified(w', key) && NoneInFlight(w', key) && w'.store[key] == w.store[key]
  {
  }

  /** A verified entry without overlapping calls is never changed again. */
  lemma {:induction false} VerifiedIsFinal(overlayOf: Overlay, w: World, ws: seq<World>, sts: seq<Step>,
                                           k: nat, key: string)
    requires Exec(overlayOf, w, ws, sts) && k < |ws| && Verified(w, key) && NoneInFlight(w, key)
    ensures Verified(ws[k], key) && NoneInFlight(ws[k], key) && ws[k].store[key] == w.store[key]
  {
    if k > 0 {
      VerifiedIsFinal(overlayOf, w, ws, sts, k - 1, key);
      StepKeepsVerified(overlayOf, ws[k - 1], sts[k - 1], key);
    }
  }

  /** A verified entry stays verified in every continuation if and only if no call for its pair is
      under way: such a call may meet a backend error and greylist the pair. */
  lemma StaysVerifiedIff(overlayOf: Overlay, w: World, key: string)
    requires Verified(w, key)
    ensures StaysVerified(overlayOf, w, key) <==> NoneInFlight(w, key)
  {
    if NoneInFlight(w, key) {
      forall ws: seq<World>, sts | Exec(overlayOf, w, ws, sts) ensures Verified(ws[|ws| - 1], key) {
        VerifiedIsFinal(overlayOf, w, ws, sts, |ws| - 1, key);
      }
    } else {
      var i :| 0 <= i < |w.flights| && KeyOf(w.flights[i]) == key;
      var st := Finish(i, Faults(true, false, false), false);
      var w' := Apply(overlayOf, w, st);
      assert Exec(overlayOf, w, [w, w'], [st]);
      assert !Verified([w, w'][1], key);
    }
  }

  /** Worlds with such a call under way are reached: both calls begin at one time and ask the backend, one
      verifies, the other meets a backend error. */
  lemma VerificationLost(overlayOf: Overlay, c: Chain, x: Call) returns (ws: seq<World>, sts: seq<Step>)
    requires |x.tx.bytes| == 32 && FullCheck(overlayOf, c, x, FAULTLESS).Ok?
    ensures Run(overlayOf, ws, sts) && |ws| == 5
    ensures sts[0] == sts[1] == Begin(x, false) && ws[0].now == ws[1].now
    ensures Lookup(ws[0].store, x, ws[0].now, false).None? && Lookup(ws[1].store, x, ws[1].now, false).None?
    ensures KeyOf(x) in ws[3].store && ws[3].store[KeyOf(x)].verified
    ensures KeyOf(x) in ws[4].store && !ws[4].store[KeyOf(x)].verified
  {
    var begin, good, bad := Begin(x, false), Finish(0, FAULTLESS, false), Finish(0, Faults(true, false, false), false);
    var w0, w1 := World(c, 0, map[], [], map[], []), World(c, 0, map[], [x], map[], []);
    var w2 := World(c, 0, map[], [x, x], map[], []);
    var w3, w4 := Apply(overlayOf, w2, good), Apply(overlayOf, Apply(overlayOf, w2, good), bad);
    assert w1.flights == w0.flights + [x] && w2.flights == w1.flights + [x];
    OneVerified(overlayOf, c, x);
    ws, sts := [w0, w1, w2, w3, w4], [begin, begin, good, bad];
  }

  lemma OneVerified(overlayOf: Overlay, c: Chain, x: Call)
    requires FullCheck(overlayOf, c, x, FAULTLESS).Ok?
    ensures var w := Apply(overlayOf, World(c, 0, map[], [x, x], map[], []), Finish(0, FAULTLESS, false));
            w.flights == [x] && w.chain == c && KeyOf(x) in w.store && w.store[KeyOf(x)].verified
  {
  }
}
