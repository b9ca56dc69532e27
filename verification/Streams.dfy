/**
 The stream registry (p2p/stream.go): three indexes, a counter per peer and the connection
 manager's tag, kept in step under one lock. A stream is registered at most once.
 */
module Streams {
  import opened Wrappers

  datatype Stream = Stream(peer: string, localAddr: string)

  datatype State = State(
    streams: map<nat, Stream>,      // live streams by id
    conns: map<string, int>,        // live streams per peer
    nextID: nat,
    byAddr: map<string, nat>,       // local address to stream
    tags: set<string>)              // peers tagged with the connection manager

  function Registered(s: State, x: Stream): State {
    s.(streams := s.streams[s.nextID := x],
       conns := s.conns[x.peer := (if x.peer in s.conns then s.conns[x.peer] else 0) + 1],
       nextID := s.nextID + 1,
       byAddr := s.byAddr[x.localAddr := s.nextID],
       tags := s.tags + {x.peer})
  }

  /** Decrements, and forgets and untags a peer without streams. A second call changes nothing. */
  function Deregistered(s: State, id: nat): State {
    if id !in s.streams then s
    else
      var x := s.streams[id];
      var left := if x.peer in s.conns then s.conns[x.peer] - 1 else -1;
      s.(streams := s.streams - {id},
         conns := if left < 1 then s.conns - {x.peer} else s.conns[x.peer := left],
         byAddr := s.byAddr - {x.localAddr},
         tags := if left < 1 then s.tags - {x.peer} else s.tags)
  }

  // ---------------------------------------------------------------- what every operation keeps

  ghost function Ids(streams: map<nat, Stream>, peer: string): set<nat> {
    set id | id in streams && streams[id].peer == peer
  }

  ghost predicate CountsOk(streams: map<nat, Stream>, conns: map<string, int>) {
    && (forall p :: p in conns <==> Ids(streams, p) != {})
    && (forall p :: p in conns ==> conns[p] == |Ids(streams, p)|)
  }

  ghost predicate Inv(s: State) {
    && CountsOk(s.streams, s.conns)
    && s.tags == s.conns.Keys
    && (forall id :: id in s.streams ==> id < s.nextID)
    && (forall a :: a in s.byAddr ==> s.byAddr[a] in s.streams && s.streams[s.byAddr[a]].localAddr == a)
  }

  lemma CountOneMore(streams: map<nat, Stream>, conns: map<string, int>, id: nat, x: Stream)
    requires CountsOk(streams, conns) && id !in streams
    ensures CountsOk(streams[id := x], conns[x.peer := (if x.peer in conns then conns[x.peer] else 0) + 1])
  {
    var more := streams[id := x];
    assert Ids(more, x.peer) == Ids(streams, x.peer) + {id};
    forall p | p != x.peer ensures Ids(more, p) == Ids(streams, p) {
    }
    assert x.peer !in conns ==> Ids(streams, x.peer) == {};
  }

  lemma RegisterKeepsInv(s: State, x: Stream)
    requires Inv(s)
    ensures Inv(Registered(s, x)) && s.nextID !in s.streams
  {
    CountOneMore(s.streams, s.conns, s.nextID, x);
  }

  lemma DeregisterKeepsInv(s: State, id: nat)
    requires Inv(s)
    ensures Inv(Deregistered(s, id))
    ensures id in s.streams ==> s.streams[id].peer in s.conns && s.conns[s.streams[id].peer] >= 1
  {
    if id in s.streams {
      var t, x := Deregistered(s, id), s.streams[id];
      assert id in Ids(s.streams, x.peer);
      forall p ensures Ids(t.streams, p) == Ids(s.streams, p) - {id} {
      }
      forall p | p != x.peer ensures Ids(t.streams, p) == Ids(s.streams, p) {
      }
      assert |Ids(t.streams, x.peer)| == |Ids(s.streams, x.peer)| - 1;
      assert Ids(t.streams, x.peer) == {} <==> |Ids(t.streams, x.peer)| == 0;
    }
  }

  // ---------------------------------------------------------------- whole runs

  datatype Event = Register(x: Stream) | Deregister(id: nat)

  const EMPTY := State(map[], map[], 0, map[], {})

  function Happened(s: State, e: Event): State {
    match e
    case Register(x) => Registered(s, x)
    case Deregister(id) => Deregistered(s, id)
  }

  /** The state after the first k events. */
  ghost function After(events: seq<Event>, k: nat): State
    requires k <= |events|
  {
    if k == 0 then EMPTY else Happened(After(events, k - 1), events[k - 1])
  }

  /** In every reachable state the counters count, the tags tag and the indexes agree. */
  lemma {:induction false} RunInv(events: seq<Event>, k: nat)
    requires k <= |events|
    ensures Inv(After(events, k))
  {
    if k > 0 {
      RunInv(events, k - 1);
      match events[k - 1]
      case Register(x) => RegisterKeepsInv(After(events, k - 1), x);
      case Deregister(id) => DeregisterKeepsInv(After(events, k - 1), id);
    }
  }

  // ---------------------------------------------------------------- is every live stream found?

  ghost predicate AddrFree(s: State, addr: string) {
    forall id :: id in s.streams ==> s.streams[id].localAddr != addr
  }

  /** Event k registers no stream at the address of a live one. */
  ghost predicate FreshAt(events: seq<Event>, k: nat)
    requires k < |events|
  {
    events[k].Register? ==> AddrFree(After(events, k), events[k].x.localAddr)
  }

  /** No stream is registered at the address of one that is still live. */
  ghost predicate AddressesDistinct(events: seq<Event>) {
    forall k {:trigger FreshAt(events, k)} :: 0 <= k < |events| ==> FreshAt(events, k)
  }

  predicate FoundByAddress(s: State, id: nat)
    requires id in s.streams
  {
    var a := s.streams[id].localAddr; a in s.byAddr && s.byAddr[a] == id
  }

  /** Every live stream is found by its address. */
  ghost predicate Indexed(s: State) {
    forall id :: id in s.streams ==> FoundByAddress(s, id)
  }

  lemma {:induction false} DistinctIndexed(events: seq<Event>, k: nat)
    requires AddressesDistinct(events) && k <= |events|
    ensures Indexed(After(events, k))
  {
    if k > 0 {
      DistinctIndexed(events, k - 1);
      RunInv(events, k - 1);
      assert FreshAt(events, k - 1);
      IndexedStep(After(events, k - 1), events[k - 1]);
    }
  }

  lemma IndexedStep(s: State, e: Event)
    requires Inv(s) && Indexed(s) && (e.Register? ==> AddrFree(s, e.x.localAddr))
    ensures Indexed(Happened(s, e))
  {
  }

  /** Registering at the address of a live stream hides that stream. */
  lemma TakenAddressHides(s: State, x: Stream)
    requires Inv(s) && !AddrFree(s, x.localAddr)
    ensures !Indexed(Registered(s, x))
  {
    var id :| id in s.streams && s.streams[id].localAddr == x.localAddr;
    assert !FoundByAddress(Registered(s, x), id);
  }

  /** Every live stream is found by its address at all times of a run if and only if no stream is ever
      registered at the address of a live one. */
  lemma AlwaysFoundIff(events: seq<Event>)
    ensures (forall k :: 0 <= k <= |events| ==> Indexed(After(events, k))) <==> AddressesDistinct(events)
  {
    if AddressesDistinct(events) {
      forall k | 0 <= k <= |events| ensures Indexed(After(events, k)) {
        DistinctIndexed(events, k);
      }
    } else {
      var k :| 0 <= k < |events| && !FreshAt(events, k);
      RunInv(events, k);
      TakenAddressHides(After(events, k), events[k].x);
      assert !Indexed(After(events, k + 1));
    }
  }

  /** The event registers a stream at the address, or removes one that is live at it. */
  predicate Takes(s: State, e: Event, addr: string) {
    match e
    case Register(x) => x.localAddr == addr
    case Deregister(id) => id in s.streams && s.streams[id].localAddr == addr
  }

  /** Event j takes the address. */
  ghost predicate TakenAt(events: seq<Event>, j: nat, addr: string)
    requires j < |events|
  {
    Takes(After(events, j), events[j], addr)
  }

  /** No event after k and before n took the address. */
  ghost predicate Untaken(events: seq<Event>, k: nat, n: nat, addr: string)
    requires n <= |events|
  {
    forall j {:trigger TakenAt(events, j, addr)} :: k < j < n ==> !TakenAt(events, j, addr)
  }

  /** One event leaves a stream that stays live found unless it takes the address. */
  lemma FoundStep(s: State, e: Event, id: nat)
    requires id < s.nextID && id in Happened(s, e).streams
    ensures id in s.streams
    ensures var t := Happened(s, e);
            && t.streams[id] == s.streams[id]
            && (FoundByAddress(t, id) <==> FoundByAddress(s, id) && !Takes(s, e, s.streams[id].localAddr))
  {
  }

  lemma {:induction false} IdsRise(events: seq<Event>, j: nat, k: nat)
    requires j <= k <= |events|
    ensures After(events, j).nextID <= After(events, k).nextID
    decreases k
  {
    if j < k {
      IdsRise(events, j, k - 1);
    }
  }

  lemma UntakenOneMore(events: seq<Event>, k: nat, n: nat, addr: string)
    requires k < n < |events|
    ensures Untaken(events, k, n + 1, addr) <==> Untaken(events, k, n, addr) && !TakenAt(events, n, addr)
  {
  }

  /** The stream that event k registered, if still live after n events, is found by its address if and
      only if no event since took the address. */
  lemma {:induction false} FoundIff(events: seq<Event>, k: nat, n: nat)
    requires k < n <= |events| && events[k].Register? && After(events, k).nextID in After(events, n).streams
    ensures var s := After(events, n); var id := After(events, k).nextID;
            && s.streams[id] == events[k].x
            && (FoundByAddress(s, id) <==> Untaken(events, k, n, events[k].x.localAddr))
    decreases n
  {
    if k < n - 1 {
      IdsRise(events, k + 1, n - 1);
      FoundStep(After(events, n - 1), events[n - 1], After(events, k).nextID);
      FoundIff(events, k, n - 1);
      UntakenOneMore(events, k, n - 1, events[k].x.localAddr);
    }
  }

  /** Two live streams at one address: closing the first hides the second. */
  lemma HiddenStream() returns (events: seq<Event>, s: State)
    ensures s == After(events, |events|) && 1 in s.streams && s.streams[1].localAddr !in s.byAddr
  {
    var x, y := Stream("p", "a"), Stream("q", "a");
    events := [Register(x), Register(y), Deregister(0)];
    assert After(events, 1) == Registered(EMPTY, x);
    assert After(events, 2) == Registered(After(events, 1), y);
    s := After(events, 3);
  }

  // ---------------------------------------------------------------- the code

  class Endpoint {
    var closed: bool
    var reset: bool
    constructor ()
      ensures !closed && !reset
    {
      closed, reset := false, false;
    }
  }

  class StreamRegistry {
    var streams: map<nat, Stream>
    var conns: map<string, int>
    var nextID: nat
    var byAddr: map<string, nat>
    var tags: set<string>

    ghost function View(): State
      reads this
    {
      State(streams, conns, nextID, byAddr, tags)
    }

    constructor ()
      ensures View() == EMPTY && Inv(View())
    {
      streams, conns, nextID, byAddr, tags := map[], map[], 0, map[], {};
      new;
      RunInv([], 0);
    }

    method RegisterStream(x: Stream) returns (id: nat)
      requires Inv(View())
      modifies this
      ensures Inv(View()) && View() == Registered(old(View()), x)
      ensures id == old(nextID) && id !in old(streams) && nextID == id + 1
      ensures streams == old(streams)[id := x] && byAddr == old(byAddr)[x.localAddr := id]
      ensures conns == old(conns)[x.peer := 1 + if x.peer in old(conns) then old(conns)[x.peer] else 0]
      ensures tags == old(tags) + {x.peer}
    {
      tags := tags + {x.peer};
      conns := conns[x.peer := (if x.peer in conns then conns[x.peer] else 0) + 1];
      id := nextID;
      streams := streams[nextID := x];
      nextID := nextID + 1;
      byAddr := byAddr[x.localAddr := id];
      assert View() == Registered(old(View()), x);
      RegisterKeepsInv(old(View()), x);
    }

    method DeregisterStream(id: nat)
      requires Inv(View())
      modifies this
      ensures Inv(View()) && View() == Deregistered(old(View()), id)
      ensures streams == old(streams) - {id} && nextID == old(nextID)
      ensures id !in old(streams) ==> View() == old(View())
      ensures id in old(streams) ==>
                var x := old(streams)[id];
                && byAddr == old(byAddr) - {x.localAddr} && x.peer in old(conns)
                && conns == (if old(conns)[x.peer] == 1 then old(conns) - {x.peer}
                             else old(conns)[x.peer := old(conns)[x.peer] - 1])
                && tags == (if old(conns)[x.peer] == 1 then old(tags) - {x.peer} else old(tags))
    {
      DeregisterKeepsInv(View(), id);
      if id !in streams {
        assert streams - {id} == streams;
        return;
      }
      var x := streams[id];
      var left := (if x.peer in conns then conns[x.peer] else 0) - 1;
      if left < 1 {
        conns := conns - {x.peer};
        tags := tags - {x.peer};
      } else {
        conns := conns[x.peer := left];
      }
      streams := streams - {id};
      byAddr := byAddr - {x.localAddr};
    }

    method GetStreamRemotePeerID(addr: string) returns (r: Option<string>)
      requires Inv(View())
      ensures r.Some? <==> addr in byAddr
      ensures r.Some? ==> exists id :: id in streams && streams[id] == Stream(r.value, addr)
    {
      if addr in byAddr {
        assert streams[byAddr[addr]] == Stream(streams[byAddr[addr]].peer, addr);
        return Some(streams[byAddr[addr]].peer);
      }
      return None;
    }

    /** Closing from both copying goroutines is the same as closing once. */
    method Close(id: nat, local: Endpoint, remote: Endpoint)
      requires Inv(View())
      modifies this, local, remote
      ensures Inv(View()) && View() == Deregistered(old(View()), id)
      ensures local.closed && remote.closed && id !in streams
      ensures id !in old(streams) ==> View() == old(View())
    {
      local.closed := true;
      remote.closed := true;
      DeregisterStream(id);
    }

    method Reset(id: nat, local: Endpoint, remote: Endpoint)
      requires Inv(View())
      modifies this, local, remote
      ensures Inv(View()) && View() == Deregistered(old(View()), id)
      ensures local.closed && remote.reset && id !in streams
      ensures id !in old(streams) ==> View() == old(View())
    {
      local.closed := true;
      remote.reset := true;
      DeregisterStream(id);
    }
  }
}
