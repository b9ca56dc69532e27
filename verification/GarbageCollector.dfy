/**
 Mark and sweep over the block store (gc/gc.go).

 A `World` fixes everything a run takes from outside: what the link fetcher answers for
 each CID, which CIDs pass the hash check, what the pinner lists, which keys the store
 enumerates, how each deletion ends and at which moments an I/O error or a cancellation
 strikes. Every theorem is for every world, hence for every run.
 */
module GarbageCollector {
  import opened Wrappers

  const RAW: nat := 0x55

  datatype Cid = Cid(version: nat, codec: nat, hash: nat)

  /** The keys under which a CID is marked: only version-0 CIDs are expanded. */
  function ToCidV1(c: Cid): seq<Cid> {
    if c.version == 0 then [Cid(1, c.codec, c.hash), Cid(1, RAW, c.hash)] else [c]
  }

  datatype Fetch = Links(cids: seq<Cid>) | NotFound | Broken

  datatype Hiccup = Quiet | IoError | Cancelled

  datatype Deletion = Deleted | Refused | RefusedButGone

  datatype Mode = Strict | BestEffort

  datatype Report =
    | CannotFetchLinks(key: Cid)
    | MarkFailed
    | KeyRemoved(key: Cid)
    | CannotDelete(key: Cid)
    | CannotDeleteSome

  datatype World = World(
    fetch: Cid -> Fetch,               // the stored node's links, or why they cannot be had
    rank: Cid -> nat,                  // DAG height: a hash link cannot point back up
    valid: Cid -> bool,                // the hash check of verifcid
    recursiveKeys: Option<seq<Cid>>,   // None: the pinner fails
    directKeys: Option<seq<Cid>>,
    internalPins: Option<seq<Cid>>,
    bestEffortRoots: seq<Cid>,
    hiccup: nat -> Hiccup,             // what befalls the n-th link fetch
    keys: Option<seq<Cid>>,            // the enumeration of the store
    deletion: Cid -> Deletion,
    stopBefore: nat -> bool,           // cancellation seen before the n-th key
    stopAfter: nat -> bool)            // cancellation seen while reporting the n-th key

  ghost predicate ContentAddressed(w: World) {
    forall c, d :: LinksTo(w, c, d) ==> w.rank(d) < w.rank(c)
  }

  /** `c` can be fetched and links to `d`. */
  predicate LinksTo(w: World, c: Cid, d: Cid) {
    w.fetch(c).Links? && d in w.fetch(c).cids
  }

  /** The links the walk follows. */
  function Children(w: World, c: Cid): seq<Cid> {
    if w.fetch(c).Links? then w.fetch(c).cids else []
  }

  // ---------------------------------------------------------------- reachability

  /** `b` hangs `n` links below `a`; every link on the way can be fetched. */
  ghost predicate Steps(w: World, a: Cid, b: Cid, n: nat)
    decreases n
  {
    if n == 0 then a == b else exists d :: LinksTo(w, a, d) && Steps(w, d, b, n - 1)
  }

  ghost predicate Reachable(w: World, a: Cid, b: Cid) {
    exists n: nat :: Steps(w, a, b, n)
  }

  /** What the walk without a visited set meets; it ends because ranks fall along links. */
  ghost function Descend(w: World, c: Cid): set<Cid>
    requires ContentAddressed(w)
    decreases w.rank(c)
  {
    assert forall d :: d in Children(w, c) ==> LinksTo(w, c, d);
    {c} + set d, x | d in Children(w, c) && x in Descend(w, d) :: x
  }

  ghost function DescendAll(w: World, roots: seq<Cid>): set<Cid>
    requires ContentAddressed(w)
  {
    set r, x | r in roots && x in Descend(w, r) :: x
  }

  lemma DescendChild(w: World, c: Cid, d: Cid)
    requires ContentAddressed(w) && LinksTo(w, c, d)
    ensures Descend(w, d) <= Descend(w, c)
  {
  }

  lemma {:induction false} DescendOnlyReachable(w: World, c: Cid, x: Cid) returns (n: nat)
    requires ContentAddressed(w)
    requires x in Descend(w, c)
    ensures Steps(w, c, x, n)
    decreases w.rank(c)
  {
    if x == c {
      n := 0;
    } else {
      var d :| d in Children(w, c) && x in Descend(w, d);
      assert LinksTo(w, c, d);
      var m := DescendOnlyReachable(w, d, x);
      n := m + 1;
    }
  }

  lemma {:induction false} StepsInDescend(w: World, a: Cid, b: Cid, n: nat)
    requires ContentAddressed(w) && Steps(w, a, b, n)
    ensures b in Descend(w, a)
    decreases n
  {
    if n > 0 {
      var d :| LinksTo(w, a, d) && Steps(w, d, b, n - 1);
      StepsInDescend(w, d, b, n - 1);
      DescendChild(w, a, d);
    }
  }

  /** The recursive walk meets exactly the reachable CIDs. */
  lemma DescendIffReachable(w: World, c: Cid, x: Cid)
    requires ContentAddressed(w)
    ensures x in Descend(w, c) <==> Reachable(w, c, x)
  {
    if x in Descend(w, c) {
      var n := DescendOnlyReachable(w, c, x);
    }
    if Reachable(w, c, x) {
      var n: nat :| Steps(w, c, x, n);
      StepsInDescend(w, c, x, n);
    }
  }

  ghost predicate ClosedUnderLinks(w: World, s: set<Cid>) {
    forall c, d :: c in s && LinksTo(w, c, d) ==> d in s
  }

  lemma {:induction false} DescendStaysInside(w: World, c: Cid, s: set<Cid>)
    requires ContentAddressed(w) && ClosedUnderLinks(w, s) && c in s
    ensures Descend(w, c) <= s
    decreases w.rank(c)
  {
    forall d | d in Children(w, c) ensures Descend(w, d) <= s {
      assert LinksTo(w, c, d);
      DescendStaysInside(w, d, s);
    }
  }

  lemma {:induction false} DescendIsClosed(w: World, c: Cid)
    requires ContentAddressed(w)
    ensures ClosedUnderLinks(w, Descend(w, c))
    decreases w.rank(c)
  {
    forall x, y | x in Descend(w, c) && LinksTo(w, x, y) ensures y in Descend(w, c) {
      if x == c {
        DescendChild(w, c, y);
      } else {
        var d :| d in Children(w, c) && x in Descend(w, d);
        assert LinksTo(w, c, d);
        DescendIsClosed(w, d);
        assert y in Descend(w, d);
        DescendChild(w, c, d);
      }
    }
  }

  lemma DescendAllIsClosed(w: World, roots: seq<Cid>)
    requires ContentAddressed(w)
    ensures ClosedUnderLinks(w, DescendAll(w, roots))
  {
    forall x, y | x in DescendAll(w, roots) && LinksTo(w, x, y) ensures y in DescendAll(w, roots) {
      var r :| r in roots && x in Descend(w, r);
      DescendIsClosed(w, r);
      assert y in Descend(w, r);
    }
  }

  /** `DescendAll` is the least set that holds the roots and is closed under links. */
  lemma DescendAllIsLeastClosed(w: World, roots: seq<Cid>, s: set<Cid>)
    requires ContentAddressed(w)
    ensures Elements(roots) <= DescendAll(w, roots) && ClosedUnderLinks(w, DescendAll(w, roots))
    ensures ClosedUnderLinks(w, s) && Elements(roots) <= s ==> DescendAll(w, roots) <= s
  {
    DescendAllIsClosed(w, roots);
    forall r | r in roots ensures r in DescendAll(w, roots) {
      assert r in Descend(w, r);
    }
    if ClosedUnderLinks(w, s) && Elements(roots) <= s {
      forall r | r in roots ensures Descend(w, r) <= s {
        DescendStaysInside(w, r, s);
      }
    }
  }

  // ---------------------------------------------------------------- what a run should mark

  ghost function Image(s: set<Cid>): set<Cid> {
    set c, k | c in s && k in ToCidV1(c) :: k
  }

  lemma ImageUnion(a: set<Cid>, b: set<Cid>)
    ensures Image(a + b) == Image(a) + Image(b)
  {
  }

  ghost predicate Fetchable(w: World, mode: Mode, c: Cid) {
    w.valid(c) && (w.fetch(c).Links? || (mode.BestEffort? && w.fetch(c).NotFound?))
  }

  ghost predicate Clean(w: World, mode: Mode, s: set<Cid>) {
    forall c :: c in s ==> Fetchable(w, mode, c)
  }

  ghost predicate Disturbed(w: World, from: nat, to: nat) {
    exists t: nat :: from <= t < to && !w.hiccup(t).Quiet?
  }

  /** Something under `s` cannot be had, or a fetch between the two moments was disturbed. */
  ghost predicate Trouble(w: World, mode: Mode, s: set<Cid>, from: nat, to: nat) {
    !Clean(w, mode, s) || Disturbed(w, from, to)
  }

  lemma TroubleSplit(w: World, mode: Mode, s: set<Cid>, t: set<Cid>, a: nat, b: nat, c: nat)
    requires a <= b <= c
    ensures Trouble(w, mode, s + t, a, c) <==> Trouble(w, mode, s, a, b) || Trouble(w, mode, t, b, c)
  {
  }

  function Pinned(o: Option<seq<Cid>>): seq<Cid> {
    if o.Some? then o.value else []
  }

  /** Everything the four kinds of root keep alive. */
  ghost function Live(w: World): set<Cid>
    requires ContentAddressed(w)
  {
    DescendAll(w, Pinned(w.recursiveKeys)) + DescendAll(w, w.bestEffortRoots)
    + Elements(Pinned(w.directKeys)) + DescendAll(w, Pinned(w.internalPins))
  }

  /** Every pin list can be read and no node under a root is unfetchable or insecure. */
  ghost predicate Markable(w: World)
    requires ContentAddressed(w)
  {
    && w.recursiveKeys.Some? && w.directKeys.Some? && w.internalPins.Some?
    && Clean(w, Strict, DescendAll(w, w.recursiveKeys.value))
    && Clean(w, BestEffort, DescendAll(w, w.bestEffortRoots))
    && Clean(w, Strict, DescendAll(w, w.internalPins.value))
  }

  /** Stated on paths: `c` is pinned directly or reachable from a root. */
  ghost predicate KeptAlive(w: World, c: Cid) {
    || c in Pinned(w.directKeys)
    || exists r :: (r in Pinned(w.recursiveKeys) || r in w.bestEffortRoots || r in Pinned(w.internalPins))
                   && Reachable(w, r, c)
  }

  lemma InDescendAll(w: World, roots: seq<Cid>, c: Cid)
    requires ContentAddressed(w)
    ensures c in DescendAll(w, roots) <==> exists r :: r in roots && Reachable(w, r, c)
  {
    forall r ensures c in Descend(w, r) <==> Reachable(w, r, c) {
      DescendIffReachable(w, r, c);
    }
  }

  lemma LiveIffKeptAlive(w: World, c: Cid)
    requires ContentAddressed(w)
    ensures c in Live(w) <==> KeptAlive(w, c)
  {
    InDescendAll(w, Pinned(w.recursiveKeys), c);
    InDescendAll(w, w.bestEffortRoots, c);
    InDescendAll(w, Pinned(w.internalPins), c);
  }

  /** Stated on paths: the pin lists can be read, everything below a strict root can be fetched, nothing
      below a best-effort root is broken, and all of it passes the hash check. */
  ghost predicate Intact(w: World) {
    && w.recursiveKeys.Some? && w.directKeys.Some? && w.internalPins.Some?
    && (forall r, c :: (r in w.recursiveKeys.value || r in w.internalPins.value) && Reachable(w, r, c) ==>
          w.valid(c) && w.fetch(c).Links?)
    && (forall r, c :: r in w.bestEffortRoots && Reachable(w, r, c) ==> w.valid(c) && !w.fetch(c).Broken?)
  }

  lemma CleanIff(w: World, mode: Mode, roots: seq<Cid>)
    requires ContentAddressed(w)
    ensures Clean(w, mode, DescendAll(w, roots)) <==>
            forall r, c :: r in roots && Reachable(w, r, c) ==> Fetchable(w, mode, c)
  {
    forall c ensures c in DescendAll(w, roots) <==> exists r :: r in roots && Reachable(w, r, c) {
      InDescendAll(w, roots, c);
    }
  }

  lemma MarkableIff(w: World)
    requires ContentAddressed(w)
    ensures Markable(w) <==> Intact(w)
  {
    CleanIff(w, Strict, Pinned(w.recursiveKeys));
    CleanIff(w, BestEffort, w.bestEffortRoots);
    CleanIff(w, Strict, Pinned(w.internalPins));
  }

  /** The store keys of a CID: a version-0 CID stands for its version-1 form and for the raw block
      (codec 0x55), any other for itself alone. */
  predicate Protects(c: Cid, k: Cid) {
    if c.version == 0 then k.version == 1 && k.hash == c.hash && (k.codec == c.codec || k.codec == 0x55) else k == c
  }

  ghost predicate KeyProtected(w: World, k: Cid) {
    exists c :: KeptAlive(w, c) && Protects(c, k)
  }

  lemma ProtectedIsMarked(w: World)
    requires ContentAddressed(w)
    ensures forall k :: k in Image(Live(w)) <==> KeyProtected(w, k)
  {
    forall c, k ensures k in ToCidV1(c) <==> Protects(c, k) {
      assert c.version == 0 ==> ToCidV1(c)[0] == Cid(1, c.codec, c.hash) && ToCidV1(c)[1] == Cid(1, 0x55, c.hash);
    }
    forall c ensures c in Live(w) <==> KeptAlive(w, c) {
      LiveIffKeptAlive(w, c);
    }
  }

  // ---------------------------------------------------------------- reports

  /** Reports of marking only. */
  ghost predicate MarkingOnly(output: seq<Report>) {
    forall r :: r in output ==> r.CannotFetchLinks? || r.MarkFailed?
  }

  /** What an uncancelled sweep says about the first n keys: each unmarked key was removed or could not be. */
  function Told(w: World, keys: seq<Cid>, marked: set<Cid>, n: nat): seq<Report>
    requires n <= |keys|
  {
    if n == 0 then []
    else
      var k := keys[n - 1];
      Told(w, keys, marked, n - 1)
      + if k in marked then [] else [if w.deletion(k).Deleted? then KeyRemoved(k) else CannotDelete(k)]
  }

  ghost predicate AmongFirst(keys: seq<Cid>, k: Cid, n: nat) {
    exists i :: 0 <= i < n && i < |keys| && keys[i] == k
  }

  /** No key is reported removed twice. */
  ghost predicate RemovedOnce(output: seq<Report>) {
    forall i, j :: 0 <= i < j < |output| && output[i].KeyRemoved? && output[j].KeyRemoved? ==>
      output[i].key != output[j].key
  }

  lemma {:induction false} ToldExactly(w: World, keys: seq<Cid>, marked: set<Cid>, n: nat, k: Cid)
    requires n <= |keys|
    ensures var t := Told(w, keys, marked, n);
            && (KeyRemoved(k) in t <==> AmongFirst(keys, k, n) && k !in marked && w.deletion(k).Deleted?)
            && (CannotDelete(k) in t <==> AmongFirst(keys, k, n) && k !in marked && !w.deletion(k).Deleted?)
            && CannotDeleteSome !in t
  {
    if n > 0 {
      ToldExactly(w, keys, marked, n - 1, k);
      assert AmongFirst(keys, k, n) <==> AmongFirst(keys, k, n - 1) || keys[n - 1] == k;
    }
  }

  lemma {:induction false} ToldOnce(w: World, keys: seq<Cid>, marked: set<Cid>, n: nat)
    requires n <= |keys| && Distinct(keys)
    ensures RemovedOnce(Told(w, keys, marked, n))
  {
    if n > 0 {
      var before, k := Told(w, keys, marked, n - 1), keys[n - 1];
      ToldOnce(w, keys, marked, n - 1);
      ToldExactly(w, keys, marked, n - 1, k);
      assert !AmongFirst(keys, k, n - 1);
      assert forall i :: 0 <= i < |before| && before[i] == KeyRemoved(k) ==> before[i] in before;
    }
  }

  // ---------------------------------------------------------------- the collector

  class Collector {
    const w: World
    var gcs: set<Cid>
    var errors: bool
    var output: seq<Report>
    var tick: nat
    var store: set<Cid>

    constructor (w: World, store: set<Cid>)
      ensures this.w == w && this.store == store
      ensures gcs == {} && !errors && output == [] && tick == 0
    {
      this.w, this.store := w, store;
      gcs, errors, output, tick := {}, false, [], 0;
    }

    method Emit(r: Report)
      modifies this`output
      ensures output == old(output) + [r]
    {
      output := output + [r];
    }

    /** The visit callback: adds every marked form of `c` and always says "go on". */
    method Visit(c: Cid)
      modifies this`gcs
      ensures gcs == old(gcs) + Image({c})
    {
      var cids := ToCidV1(c);
      for i := 0 to |cids|
        invariant gcs == old(gcs) + set k | k in cids[..i]
      {
        gcs := gcs + {cids[i]};
      }
      assert Image({c}) == set k | k in cids;
    }

    /** `getLinks` behind the hash check. A failed fetch is recorded and yields no links. */
    method GetLinks(c: Cid, mode: Mode) returns (err: bool, links: seq<Cid>)
      modifies this`errors, this`output, this`tick
      ensures tick == if w.valid(c) then old(tick) + 1 else old(tick)
      ensures err ==> Trouble(w, mode, {c}, old(tick), tick) && errors == old(errors) && links == []
      ensures !err ==> errors == (old(errors) || Trouble(w, mode, {c}, old(tick), tick))
      ensures !err ==> links == Children(w, c) || (errors && links == [])
      ensures !err && !errors ==> links == if w.fetch(c).Links? then w.fetch(c).cids else []
      ensures !err && !errors && mode.Strict? ==> w.fetch(c).Links?
      ensures MarkingOnly(old(output)) ==> MarkingOnly(output)
    {
      if !w.valid(c) {
        return true, [];
      }
      var now := w.hiccup(tick);
      tick := tick + 1;
      if now.Cancelled? {
        return true, [];
      }
      if now.IoError? || w.fetch(c).Broken? || (w.fetch(c).NotFound? && mode.Strict?) {
        errors := true;
        Emit(CannotFetchLinks(c));
        return false, [];
      }
      return false, Children(w, c);
    }

    /** The DAG walk; no visited set, so it ends only because ranks fall along links. */
    method Walk(c: Cid, mode: Mode) returns (err: bool)
      requires ContentAddressed(w)
      modifies this`gcs, this`errors, this`output, this`tick
      ensures old(tick) <= tick
      ensures (err || errors) <==> (old(errors) || Trouble(w, mode, Descend(w, c), old(tick), tick))
      ensures !err && !errors ==> gcs == old(gcs) + Image(Descend(w, c))
      ensures MarkingOnly(old(output)) ==> MarkingOnly(output)
      decreases w.rank(c), 1
    {
      Visit(c);
      var links;
      err, links := GetLinks(c, mode);
      ghost var before := tick;
      if !err {
        err := WalkEach(links, mode, w.rank(c));
      }
      DescendUnfold(w, c);
      TroubleSplit(w, mode, {c}, DescendAll(w, Children(w, c)), old(tick), before, tick);
      ImageUnion({c}, DescendAll(w, Children(w, c)));
    }

    /** Walks a list of CIDs in turn and stops at the first error. */
    method WalkEach(cids: seq<Cid>, mode: Mode, ghost bound: nat) returns (err: bool)
      requires ContentAddressed(w)
      requires forall c :: c in cids ==> w.rank(c) < bound
      modifies this`gcs, this`errors, this`output, this`tick
      ensures old(tick) <= tick
      ensures (err || errors) <==> (old(errors) || Trouble(w, mode, DescendAll(w, cids), old(tick), tick))
      ensures !err && !errors ==> gcs == old(gcs) + Image(DescendAll(w, cids))
      ensures MarkingOnly(old(output)) ==> MarkingOnly(output)
      decreases bound, 0
    {
      ghost var marks := {};
      for i := 0 to |cids|
        invariant old(tick) <= tick
        invariant marks == Image(DescendAll(w, cids[..i]))
        invariant errors <==> (old(errors) || Trouble(w, mode, DescendAll(w, cids[..i]), old(tick), tick))
        invariant !errors ==> gcs == old(gcs) + marks
        invariant MarkingOnly(old(output)) ==> MarkingOnly(output)
      {
        ghost var before := tick;
        err := Walk(cids[i], mode);
        DescendAllSnoc(w, cids, i);
        TroubleSplit(w, mode, DescendAll(w, cids[..i]), Descend(w, cids[i]), old(tick), before, tick);
        ImageUnion(DescendAll(w, cids[..i]), Descend(w, cids[i]));
        if err {
          return;
        }
        marks := marks + Image(Descend(w, cids[i]));
      }
      assert cids[..|cids|] == cids;
      err := false;
    }

    /** `Descendants`: marks everything under the given roots. */
    method Descendants(roots: seq<Cid>, mode: Mode) returns (err: bool)
      requires ContentAddressed(w)
      modifies this`gcs, this`errors, this`output, this`tick
      ensures old(tick) <= tick
      ensures (err || errors) <==> (old(errors) || Trouble(w, mode, DescendAll(w, roots), old(tick), tick))
      ensures !err && !errors ==> gcs == old(gcs) + Image(DescendAll(w, roots))
      ensures MarkingOnly(old(output)) ==> MarkingOnly(output)
    {
      err := WalkEach(roots, mode, RankBound(w, roots));
    }

    method MarkDirect(dkeys: seq<Cid>)
      modifies this`gcs
      ensures gcs == old(gcs) + Image(Elements(dkeys))
    {
      for i := 0 to |dkeys|
        invariant gcs == old(gcs) + Image(Elements(dkeys[..i]))
      {
        Visit(dkeys[i]);
        assert Elements(dkeys[..i + 1]) == Elements(dkeys[..i]) + {dkeys[i]};
        assert Image(Elements(dkeys[..i + 1])) == Image(Elements(dkeys[..i])) + Image({dkeys[i]});
      }
      assert dkeys[..|dkeys|] == dkeys;
    }

    /** One marking phase: a failed walk is reported and remembered. */
    method MarkFrom(roots: seq<Cid>, mode: Mode, ghost start: nat)
      requires ContentAddressed(w)
      requires start <= tick && (Disturbed(w, start, tick) ==> errors)
      modifies this`gcs, this`errors, this`output, this`tick
      ensures old(tick) <= tick
      ensures errors <==> old(errors) || !Clean(w, mode, DescendAll(w, roots)) || Disturbed(w, start, tick)
      ensures !errors ==> gcs == old(gcs) + Image(DescendAll(w, roots))
      ensures MarkingOnly(old(output)) ==> MarkingOnly(output)
    {
      var err := Descendants(roots, mode);
      DisturbedSplit(w, start, old(tick), tick);
      if err {
        errors := true;
        Emit(MarkFailed);
      }
    }

    /** Marking succeeds exactly when nothing under a root is missing, broken or insecure and
        no fetch was disturbed; the marked set is then exactly the image of the live CIDs. */
    method ColoredSet() returns (ok: bool)
      requires ContentAddressed(w)
      requires gcs == {} && !errors
      modifies this`gcs, this`errors, this`output, this`tick
      ensures old(tick) <= tick
      ensures ok <==> Intact(w) && !Disturbed(w, old(tick), tick)
      ensures ok ==> forall k :: k in gcs <==> KeyProtected(w, k)
      ensures MarkingOnly(old(output)) ==> MarkingOnly(output)
    {
      MarkableIff(w);
      if w.recursiveKeys.None? {
        return false;
      }
      MarkFrom(w.recursiveKeys.value, Strict, tick);
      MarkFrom(w.bestEffortRoots, BestEffort, old(tick));
      if w.directKeys.None? {
        return false;
      }
      MarkDirect(w.directKeys.value);
      if w.internalPins.None? {
        return false;
      }
      MarkFrom(w.internalPins.value, Strict, old(tick));
      ImageOfLive(w);
      ok := !errors;
      if ok {
        assert gcs == Image(Live(w));
        ProtectedIsMarked(w);
      }
    }

    /** One whole collection. Safety, failing closed and exactness of the sweep. */
    method Run() returns (marked: bool)
      requires ContentAddressed(w)
      requires gcs == {} && !errors && output == [] && tick == 0
      modifies this
      // failing closed: marking succeeds only if nothing under a root is missing, broken or insecure
      ensures marked <==> Intact(w) && !Disturbed(w, 0, tick)
      ensures !marked || w.keys.None? ==> store == old(store) && MarkingOnly(output)
      // safety: no key of anything kept alive is ever deleted, however the run ends
      ensures store <= old(store)
      ensures forall k :: k in old(store) && KeyProtected(w, k) ==> k in store
      ensures forall k :: KeyRemoved(k) in output ==> k !in store && !KeyProtected(w, k)
      // exactness: an uncancelled sweep deletes every other key the store lets go, and says so
      ensures marked && Uncancelled(w) && Elements(w.keys.value) == old(store) ==>
                && (forall k :: k in old(store) ==> (k in store <==> KeyProtected(w, k) || w.deletion(k).Refused?))
                && Reported(w, old(store), output)
                && (Distinct(w.keys.value) ==> RemovedOnce(output))
    {
      marked := ColoredSet();
      if !marked {
        Emit(MarkFailed);
        return;
      }
      if w.keys.None? {
        Emit(MarkFailed);
        return;
      }
      ghost var before := output;
      ghost var said := Sweep();
      if Uncancelled(w) && Elements(w.keys.value) == old(store) {
        SweepReported(w, old(store), gcs, before, said);
      }
    }

    /** The loop over the enumerated keys, in order; `said` is what it reports. */
    method Sweep() returns (ghost said: seq<Report>)
      requires w.keys.Some?
      modifies this`store, this`output
      ensures store <= old(store) && output == old(output) + said
      ensures forall k :: k in old(store) && k in gcs ==> k in store
      ensures forall k :: KeyRemoved(k) in said ==> k !in store && k !in gcs
      ensures Uncancelled(w) ==>
                && (forall k :: k in old(store) ==>
                      (k in store <==> k in gcs || k !in w.keys.value || w.deletion(k).Refused?))
                && said == AllTold(w, gcs)
    {
      var keys := w.keys.value;
      var failed := false;
      var i := 0;
      said := [];
      while i < |keys| && !w.stopBefore(i)
        invariant 0 <= i <= |keys|
        invariant store <= old(store) && output == old(output) + said
        invariant forall k :: k in old(store) && k in gcs ==> k in store
        invariant forall k :: KeyRemoved(k) in said ==> k !in store && k !in gcs
        invariant Uncancelled(w) ==> SweptFirst(w, gcs, old(store), store, i) && said == Told(w, keys, gcs, i)
        invariant failed <==> SomeRefused(w, gcs, i)
      {
        var k := keys[i];
        SweptOneMore(w, gcs, old(store), store, i);
        i := i + 1;
        if k !in gcs {
          var outcome := w.deletion(k);
          if !outcome.Refused? {
            store := store - {k};
          }
          if !outcome.Deleted? {
            failed := true;
            if w.stopAfter(i - 1) {
              break;
            }
            Emit(CannotDelete(k));
            said := said + [CannotDelete(k)];
            continue;
          }
          if w.stopAfter(i - 1) {
            break;
          }
          Emit(KeyRemoved(k));
          said := said + [KeyRemoved(k)];
        }
      }
      if failed {
        Emit(CannotDeleteSome);
        said := said + [CannotDeleteSome];
      }
    }
  }

  /** No cancellation during the sweep. */
  ghost predicate Uncancelled(w: World) {
    && w.keys.Some?
    && (forall i: nat :: i < |w.keys.value| ==> !w.stopBefore(i) && !w.stopAfter(i))
  }

  /** The first n keys have been swept, and nothing else. */
  ghost predicate SweptFirst(w: World, marked: set<Cid>, before: set<Cid>, after: set<Cid>, n: nat)
    requires w.keys.Some?
  {
    forall k :: k in before ==>
      (k in after <==> k in marked || !AmongFirst(w.keys.value, k, n) || w.deletion(k).Refused?)
  }

  lemma SweptOneMore(w: World, marked: set<Cid>, before: set<Cid>, after: set<Cid>, n: nat)
    requires w.keys.Some? && n < |w.keys.value| && after <= before
    ensures var k := w.keys.value[n];
            SweptFirst(w, marked, before, after, n) ==>
            SweptFirst(w, marked, before, if k in marked || w.deletion(k).Refused? then after else after - {k}, n + 1)
  {
    var keys := w.keys.value;
    forall x ensures AmongFirst(keys, x, n + 1) <==> AmongFirst(keys, x, n) || x == keys[n] {
      if x == keys[n] {
        assert keys[n] == x;
      }
    }
  }

  ghost predicate SomeRefused(w: World, marked: set<Cid>, n: nat)
    requires w.keys.Some?
  {
    exists i :: 0 <= i < n && i < |w.keys.value| && w.keys.value[i] !in marked && !w.deletion(w.keys.value[i]).Deleted?
  }

  ghost function AllTold(w: World, marked: set<Cid>): seq<Report>
    requires w.keys.Some?
  {
    Told(w, w.keys.value, marked, |w.keys.value|)
    + if SomeRefused(w, marked, |w.keys.value|) then [CannotDeleteSome] else []
  }

  /** Of the keys that were in the store, the unprotected ones are reported removed or not removable, and
      the last report sums the latter up. */
  ghost predicate Reported(w: World, store: set<Cid>, output: seq<Report>) {
    && (forall k :: KeyRemoved(k) in output <==> k in store && !KeyProtected(w, k) && w.deletion(k).Deleted?)
    && (forall k :: CannotDelete(k) in output <==> k in store && !KeyProtected(w, k) && !w.deletion(k).Deleted?)
    && (CannotDeleteSome in output <==> exists k :: CannotDelete(k) in output)
  }

  lemma SweepReported(w: World, store: set<Cid>, marked: set<Cid>, before: seq<Report>, said: seq<Report>)
    requires Uncancelled(w) && Elements(w.keys.value) == store && MarkingOnly(before) && said == AllTold(w, marked)
    requires forall k :: k in marked <==> KeyProtected(w, k)
    ensures Reported(w, store, before + said)
    ensures Distinct(w.keys.value) ==> RemovedOnce(before + said)
  {
    forall k
      ensures KeyRemoved(k) in before + said <==> k in store && !KeyProtected(w, k) && w.deletion(k).Deleted?
      ensures CannotDelete(k) in before + said <==> k in store && !KeyProtected(w, k) && !w.deletion(k).Deleted?
    {
      KeyReported(w, store, marked, before, k);
    }
    SummedUp(w, marked, before);
    if Distinct(w.keys.value) {
      ToldOnce(w, w.keys.value, marked, |w.keys.value|);
      RemovedOnceMore(before, Told(w, w.keys.value, marked, |w.keys.value|),
                      if SomeRefused(w, marked, |w.keys.value|) then [CannotDeleteSome] else []);
    }
  }

  lemma RemovedOnceMore(before: seq<Report>, told: seq<Report>, after: seq<Report>)
    requires MarkingOnly(before) && RemovedOnce(told) && forall r :: r in after ==> r.CannotDeleteSome?
    ensures RemovedOnce(before + (told + after))
  {
    assert forall i :: 0 <= i < |before| ==> before[i] in before;
    assert forall i :: 0 <= i < |after| ==> after[i] in after;
  }

  lemma KeyReported(w: World, store: set<Cid>, marked: set<Cid>, before: seq<Report>, k: Cid)
    requires w.keys.Some? && Elements(w.keys.value) == store && MarkingOnly(before)
    ensures var output := before + AllTold(w, marked);
            && (KeyRemoved(k) in output <==> k in store && k !in marked && w.deletion(k).Deleted?)
            && (CannotDelete(k) in output <==> k in store && k !in marked && !w.deletion(k).Deleted?)
  {
    var keys := w.keys.value;
    ToldExactly(w, keys, marked, |keys|, k);
    assert AmongFirst(keys, k, |keys|) <==> k in store;
  }

  lemma SummedUp(w: World, marked: set<Cid>, before: seq<Report>)
    requires w.keys.Some? && MarkingOnly(before)
    ensures CannotDeleteSome in before + AllTold(w, marked) <==>
            exists k :: CannotDelete(k) in before + AllTold(w, marked)
  {
    var keys := w.keys.value;
    ToldExactly(w, keys, marked, |keys|, Cid(0, 0, 0));
    if SomeRefused(w, marked, |keys|) {
      var i :| 0 <= i < |keys| && keys[i] !in marked && !w.deletion(keys[i]).Deleted?;
      ToldExactly(w, keys, marked, |keys|, keys[i]);
      assert CannotDelete(keys[i]) in before + AllTold(w, marked);
    }
    if k :| CannotDelete(k) in before + AllTold(w, marked) {
      ToldExactly(w, keys, marked, |keys|, k);
    }
  }

  lemma DisturbedSplit(w: World, a: nat, b: nat, c: nat)
    requires a <= b <= c
    ensures Disturbed(w, a, c) <==> Disturbed(w, a, b) || Disturbed(w, b, c)
  {
  }

  lemma DescendUnfold(w: World, c: Cid)
    requires ContentAddressed(w)
    ensures Descend(w, c) == {c} + DescendAll(w, Children(w, c))
  {
  }

  lemma DescendAllSnoc(w: World, roots: seq<Cid>, i: nat)
    requires ContentAddressed(w) && i < |roots|
    ensures DescendAll(w, roots[..i + 1]) == DescendAll(w, roots[..i]) + Descend(w, roots[i])
    ensures Descend(w, roots[i]) <= DescendAll(w, roots)
  {
  }

  ghost function RankBound(w: World, roots: seq<Cid>): (b: nat)
    ensures forall c :: c in roots ==> w.rank(c) < b
  {
    if roots == [] then 0
    else
      var b, r := RankBound(w, roots[1..]), w.rank(roots[0]);
      if b <= r then r + 1 else b
  }

  lemma ImageOfLive(w: World)
    requires ContentAddressed(w)
    ensures Image(Live(w)) ==
            Image(DescendAll(w, Pinned(w.recursiveKeys))) + Image(DescendAll(w, w.bestEffortRoots))
            + Image(Elements(Pinned(w.directKeys))) + Image(DescendAll(w, Pinned(w.internalPins)))
  {
    var a, b := DescendAll(w, Pinned(w.recursiveKeys)), DescendAll(w, w.bestEffortRoots);
    var c, d := Elements(Pinned(w.directKeys)), DescendAll(w, Pinned(w.internalPins));
    ImageUnion(a, b);
    ImageUnion(a + b, c);
    ImageUnion(a + b + c, d);
  }

  // ---------------------------------------------------------------- stores keyed by multihash

  /** The key of a block in a store that enumerates its blocks in raw form. */
  function RawKey(hash: nat): Cid {
    Cid(1, RAW, hash)
  }

  /** A raw key is protected exactly when some live CID with that hash is version 0 or the raw key
      itself: liveness of a block under another version-1 codec does not protect its raw key. */
  lemma RawKeyProtectedIff(w: World, hash: nat)
    ensures KeyProtected(w, RawKey(hash)) <==>
            exists c :: KeptAlive(w, c) && c.hash == hash && (c.version == 0 || c == RawKey(hash))
  {
    if c :| KeptAlive(w, c) && c.hash == hash && (c.version == 0 || c == RawKey(hash)) {
      assert Protects(c, RawKey(hash));
    }
  }

  /** A store that holds one recursively pinned version-1 dag-pb block, enumerated under its raw key. */
  function PinnedRawWorld(): World {
    World(_ => Links([]), _ => 0, _ => true, Some([Cid(1, 0x70, 7)]), Some([]), Some([]), [], _ => Quiet,
          Some([RawKey(7)]), _ => Deleted, _ => false, _ => false)
  }

  lemma {:induction false} NoStepsFarther(w: World, a: Cid, b: Cid, n: nat)
    requires w == PinnedRawWorld() && Steps(w, a, b, n)
    ensures a == b
  {
  }

  lemma PinnedRawUnprotected()
    ensures var w := PinnedRawWorld();
            && ContentAddressed(w) && Intact(w) && KeptAlive(w, Cid(1, 0x70, 7)) && !KeyProtected(w, RawKey(7))
  {
    var w, c := PinnedRawWorld(), Cid(1, 0x70, 7);
    forall a, b | Reachable(w, a, b) ensures a == b {
      var n: nat :| Steps(w, a, b, n);
      NoStepsFarther(w, a, b, n);
    }
    assert Steps(w, c, c, 0);
  }

  /** An undisturbed collection of that store deletes the pinned block. */
  method PinnedBlockDeleted() returns (gc: Collector, marked: bool, c: Cid)
    ensures gc.w == PinnedRawWorld() && c in Pinned(gc.w.recursiveKeys) && KeptAlive(gc.w, c)
    ensures marked && gc.store == {} && KeyRemoved(RawKey(c.hash)) in gc.output
  {
    c := Cid(1, 0x70, 7);
    gc := new Collector(PinnedRawWorld(), {RawKey(7)});
    PinnedRawUnprotected();
    marked := gc.Run();
    assert Uncancelled(gc.w) && Elements(gc.w.keys.value) == {RawKey(7)};
    assert RawKey(7) !in gc.store;
  }
}
