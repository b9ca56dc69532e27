/**
 Sequence numbers of published name records (namesys/publisher.go). Records of other keys are
 never touched, so runs are followed for one key at a time.
 */
module Publisher {
  import opened Wrappers

  datatype Record = Record(value: string, sequence: nat)

  /** What a store or the routing system returns for a key. */
  datatype Lookup = Found(record: Record) | Corrupt | Absent | Failed

  /** The sequence number only rises when the value changes; without a previous record it is zero. */
  function Next(previous: Option<Record>, value: string): Record {
    if previous.None? then Record(value, 0)
    else if value != previous.value.value then Record(value, (previous.value.sequence + 1) % TWO64)
    else Record(value, previous.value.sequence)
  }

  /** `GetPublished` with checkRouting: a routing failure counts as no record. Err: give up. */
  function Published(local: Lookup, routing: Lookup): Result<Option<Record>, ()> {
    match local
    case Found(r) => Ok(Some(r))
    case Corrupt => Err(())
    case Failed => Err(())
    case Absent =>
      match routing
      case Found(r) => Ok(Some(r))
      case Corrupt => Err(())
      case _ => Ok(None)
  }

  /** One publish and everything it meets. */
  datatype Publish = Publish(value: string, getFails: bool, routing: Lookup,
                             createFails: bool, putFails: bool, syncFails: bool)

  /** The record a publish takes for the previous one; Err: give up. */
  function Previous(stored: Option<Record>, e: Publish): Result<Option<Record>, ()> {
    Published(if e.getFails then Failed else if stored.Some? then Found(stored.value) else Absent, e.routing)
  }

  /** The publish gets as far as storing a record; a failing sync comes after that. */
  predicate Stores(stored: Option<Record>, e: Publish) {
    Previous(stored, e).Ok? && !e.createFails && !e.putFails
  }

  function Step(stored: Option<Record>, e: Publish): Option<Record> {
    if Stores(stored, e) then Some(Next(Previous(stored, e).value, e.value)) else stored
  }

  /** The same number for the same value, the next one for another, in 64 bits. */
  predicate Follows(r: Record, previous: Record) {
    r.sequence ==
    if r.value == previous.value then previous.sequence else (previous.sequence + 1) % 0x1_0000_0000_0000_0000
  }

  class IpnsPublisher {
    var ds: map<string, Record>
    const corrupt: set<string>         // keys whose stored bytes do not parse

    /** A publisher on the datastore an earlier one left behind. */
    constructor (ds: map<string, Record>, corrupt: set<string>)
      ensures this.ds == ds && this.corrupt == corrupt
    {
      this.ds, this.corrupt := ds, corrupt;
    }

    function Stored(id: string): Option<Record>
      reads this
    {
      if id in ds then Some(ds[id]) else None
    }

    predicate Fails(id: string, e: Publish, stored: bool) {
      id in corrupt || e.getFails || e.createFails || e.putFails || (!stored && e.routing.Corrupt?)
    }

    /** `updateRecord` under its mutex. */
    method UpdateRecord(id: string, e: Publish) returns (r: Result<Record, ()>)
      modifies this`ds
      ensures forall k :: k != id ==> Stored(k) == old(Stored(k))
      ensures Stored(id) == if id in corrupt then old(Stored(id)) else Step(old(Stored(id)), e)
      ensures r == if id !in corrupt && Stores(old(Stored(id)), e) && !e.syncFails then Ok(ds[id]) else Err(())
      // nothing is stored if reading, creating or storing fails, or the routing system's record is needed
      // and unreadable
      ensures Fails(id, e, id in old(ds)) ==> ds == old(ds) && r == Err(())
      // the stored record counts first, then the routing system's; without either the number is zero
      ensures !Fails(id, e, id in old(ds)) ==> id in ds && ds[id].value == e.value
      ensures !Fails(id, e, id in old(ds)) && id in old(ds) ==> Follows(ds[id], old(ds)[id])
      ensures !Fails(id, e, id in old(ds)) && id !in old(ds) && e.routing.Found? ==> Follows(ds[id], e.routing.record)
      ensures !Fails(id, e, id in old(ds)) && id !in old(ds) && !e.routing.Found? ==> ds[id].sequence == 0
      ensures !Fails(id, e, id in old(ds)) ==> r == if e.syncFails then Err(()) else Ok(ds[id])
    {
      var previous: Option<Record> := None;
      if e.getFails {
        return Err(());
      }
      if id in corrupt {
        return Err(());
      }
      if id in ds {
        previous := Some(ds[id]);
      } else {
        match e.routing {
          case Found(rec) => previous := Some(rec);
          case Corrupt => return Err(());
          case Absent =>
          case Failed =>
        }
      }
      var seqno := if previous.None? then 0 else previous.value.sequence;
      if previous.Some? && e.value != previous.value.value {
        seqno := (seqno + 1) % TWO64;
      }
      var entry := Record(e.value, seqno);
      if e.createFails || e.putFails {
        return Err(());
      }
      ds := ds[id := entry];
      return if e.syncFails then Err(()) else Ok(entry);
    }
  }

  // ---------------------------------------------------------------- one number, one value

  /** `history[s]` is the value ever published under sequence number s. */
  type History = seq<string>

  /** The record published last. */
  ghost predicate Newest(h: History, r: Option<Record>) {
    if h == [] then r.None? else r == Some(Record(h[|h| - 1], |h| - 1))
  }

  ghost predicate Known(h: History, r: Option<Record>) {
    r.Some? ==> r.value.sequence < |h| && h[r.value.sequence] == r.value.value
  }

  /** The record gives a number already used another value. */
  ghost predicate Collides(h: History, r: Record) {
    r.sequence < |h| && h[r.sequence] != r.value
  }

  /** Whatever value is published next, no number gets a second value, if and only if the record
      taken for the previous one is the newest: a lost store together with an unreachable or stale
      routing system breaks it. */
  lemma NoCollisionIffNewest(h: History, previous: Option<Record>)
    requires Known(h, previous) && |h| < TWO64
    ensures (forall v :: !Collides(h, Next(previous, v))) <==> Newest(h, previous)
  {
    if !Newest(h, previous) {
      var v := Fresh(h);
      assert Collides(h, Next(previous, v));
    }
  }

  /** A value never published: longer than every other. */
  ghost function Fresh(h: History): (v: string)
    ensures v !in h && forall x :: x in h ==> |x| < |v|
  {
    if h == [] then "x"
    else
      var w := Fresh(h[1..]);
      assert forall x :: x in h ==> x == h[0] || x in h[1..];
      w + h[0]
  }

  /** Publishing a value: how the history goes on. */
  ghost function Extended(h: History, v: string): History {
    if h == [] || h[|h| - 1] != v then h + [v] else h
  }

  lemma PublishExtends(h: History, previous: Option<Record>, v: string)
    requires Newest(h, previous) && |Extended(h, v)| <= TWO64
    ensures Newest(Extended(h, v), Some(Next(previous, v)))
  {
  }

  /** When all numbers are used, the next change takes number zero again. */
  lemma FullHistoryWraps(h: History, r: Record, v: string)
    requires |h| == TWO64 && Newest(h, Some(r)) && v != r.value
    ensures Next(Some(r), v) == Record(v, 0) && (Collides(h, Next(Some(r), v)) <==> v != h[0])
  {
  }

  // ---------------------------------------------------------------- runs of publishes with any faults

  /** What is stored for the name, and every value ever stored for it, by number. */
  datatype Past = Past(stored: Option<Record>, history: History)

  ghost function Gone(p: Past, e: Publish): Past {
    Past(Step(p.stored, e), if Stores(p.stored, e) then Extended(p.history, e.value) else p.history)
  }

  ghost predicate UpToDate(p: Past) {
    p.stored.Some? ==> Newest(p.history, p.stored)
  }

  /** While nothing is stored, a publish that stores was told the newest record. */
  ghost predicate ToldNewest(p: Past, e: Publish) {
    p.stored.None? && Stores(p.stored, e) ==> Newest(p.history, Previous(p.stored, e).value)
  }

  /** Publishes one after another with any faults, and what is stored between them. The last history is
      within the range of the numbers. */
  ghost predicate Run(ps: seq<Past>, es: seq<Publish>) {
    && |ps| == |es| + 1 && UpToDate(ps[0]) && |ps[|es|].history| <= TWO64
    && forall i {:trigger es[i]} :: 0 <= i < |es| ==> ToldNewest(ps[i], es[i]) && ps[i + 1] == Gone(ps[i], es[i])
  }

  lemma {:induction false} HistoryGrows(ps: seq<Past>, es: seq<Publish>, i: nat, j: nat)
    requires Run(ps, es) && i <= j < |ps|
    ensures ps[i].history <= ps[j].history
    decreases j
  {
    if i < j {
      HistoryGrows(ps, es, i, j - 1);
      assert ps[j - 1 + 1] == Gone(ps[j - 1], es[j - 1]);
    }
  }

  lemma GoneKeeps(p: Past, e: Publish)
    requires UpToDate(p) && ToldNewest(p, e) && |Gone(p, e).history| <= TWO64
    ensures UpToDate(Gone(p, e))
  {
    if Stores(p.stored, e) {
      PublishExtends(p.history, Previous(p.stored, e).value, e.value);
    }
  }

  /** In every run, whatever fails in it, the stored record is the newest of a history in which each
      number has one value. */
  lemma {:induction false} RunKeepsHistory(ps: seq<Past>, es: seq<Publish>, k: nat)
    requires Run(ps, es) && k < |ps|
    ensures UpToDate(ps[k])
  {
    if k > 0 {
      RunKeepsHistory(ps, es, k - 1);
      HistoryGrows(ps, es, k, |es|);
      assert ToldNewest(ps[k - 1], es[k - 1]) && ps[k - 1 + 1] == Gone(ps[k - 1], es[k - 1]);
      GoneKeeps(ps[k - 1], es[k - 1]);
    }
  }

  lemma {:induction false} StoredStays(ps: seq<Past>, es: seq<Publish>, i: nat, j: nat)
    requires Run(ps, es) && i <= j < |ps| && ps[i].stored.Some?
    ensures ps[j].stored.Some?
    decreases j
  {
    if i < j {
      StoredStays(ps, es, i, j - 1);
      assert ps[j - 1 + 1] == Gone(ps[j - 1], es[j - 1]);
    }
  }

  /** A record once stored is never lost; of any two records stored in a run the later has no smaller
      number, and equal numbers mean equal values. */
  lemma OneNumberOneValue(ps: seq<Past>, es: seq<Publish>, i: nat, j: nat)
    requires Run(ps, es) && i <= j < |ps| && ps[i].stored.Some?
    ensures ps[j].stored.Some?
    ensures var a, b := ps[i].stored.value, ps[j].stored.value;
            a.sequence <= b.sequence && (a.sequence == b.sequence ==> a.value == b.value)
  {
    StoredStays(ps, es, i, j);
    HistoryGrows(ps, es, i, j);
    RunKeepsHistory(ps, es, i);
    RunKeepsHistory(ps, es, j);
  }

  /** Each publish of a run leaves the record as it is if a step before storing fails, and otherwise
      stores its value, under the same number if the value is the same and under the next if not. */
  lemma NumberRisesWithValue(ps: seq<Past>, es: seq<Publish>, k: nat)
    requires Run(ps, es) && k < |es| && ps[k].stored.Some?
    ensures ps[k + 1].stored.Some?
    ensures var a, b, e := ps[k].stored.value, ps[k + 1].stored.value, es[k];
            if e.getFails || e.createFails || e.putFails then b == a
            else b == Record(e.value, a.sequence + if e.value != a.value then 1 else 0)
  {
    RunKeepsHistory(ps, es, k);
    HistoryGrows(ps, es, k + 1, |es|);
    assert ps[k + 1] == Gone(ps[k], es[k]);
  }

  /** A publish by a node that lost its store and cannot reach the routing system: what it stores gives
      number zero a second value. */
  lemma NumberReused() returns (p: Past, e: Publish)
    ensures p.stored.None? && e.routing == Failed && Stores(p.stored, e) && !ToldNewest(p, e)
    ensures Gone(p, e).stored.Some? && Collides(p.history, Gone(p, e).stored.value)
  {
    p, e := Past(None, ["a"]), Publish("b", false, Failed, false, false, false);
  }
}
