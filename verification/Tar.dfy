/**
 The resumable tar reader (tar/format.go) against a plain recursive serializer.

 A stream is a sequence of tokens: bytes, and ERR where a read reports an error. The DAG below
 an archive root is a tree of links; a link that cannot be resolved, is no protobuf node or
 has an unreadable "data" link puts an ERR into the stream.
 */
module Tar {
  import opened Wrappers

  const ERR := -1

  const BLOCK_SIZE: nat := 512

  datatype Link =
    | Unreadable                                // GetNode fails or the node is not protobuf
    | Header(data: seq<Byte>, body: Body)

  datatype Body =
    | File(content: seq<Byte>)                  // a link named "data" that opens
    | BadFile                                   // a link named "data" that does not
    | Children(links: seq<Link>)

  function Zeros(n: nat): (z: seq<Byte>)
    ensures |z| == n && forall i :: 0 <= i < n ==> z[i] == 0
  {
    seq(n, _ => 0)
  }

  /** What brings `n` up to a multiple of the block size. */
  function Padding(n: nat): nat {
    (BLOCK_SIZE - n % BLOCK_SIZE) % BLOCK_SIZE
  }

  // ---------------------------------------------------------------- the serializer

  /** Depth first: each header, then its file padded to whole blocks or its children. */
  function Serialize(links: seq<Link>): seq<int> {
    if links == [] then [] else SerializeLink(links[0]) + Serialize(links[1..])
  }

  function SerializeLink(l: Link): seq<int> {
    match l
    case Unreadable => [ERR]
    case Header(data, File(content)) => data + content + Zeros(Padding(|content|))
    case Header(data, BadFile) => [ERR] + data
    case Header(data, Children(links)) => data + Serialize(links)
  }

  /** A directory with a subdirectory and a one-byte file: headers and contents in order, each file
      filled up to its block. */
  lemma SerializedInOrder(a: seq<Byte>, b: seq<Byte>, c: seq<Byte>, x: Byte)
    ensures Serialize([Header(a, Children([Header(b, Children([])), Header(c, File([x]))]))]) ==
            a + (b + (c + [x] + Zeros(511)))
  {
    var sub, file := Header(b, Children([])), Header(c, File([x]));
    assert [sub, file][1..] == [file] && [file][1..] == [];
    assert Serialize([file]) == c + [x] + Zeros(511);
    assert Serialize([sub, file]) == b + Serialize([file]);
    var dir := Header(a, Children([sub, file]));
    assert [dir][1..] == [];
  }

  /** Bounds the productive reads a list of links can take: its bytes and its phase ends. */
  function Weight(links: seq<Link>): nat {
    if links == [] then 0 else LinkWeight(links[0]) + Weight(links[1..])
  }

  function LinkWeight(l: Link): nat {
    match l
    case Unreadable => 1
    case Header(data, File(content)) => 2 + |data| + |content| + Padding(|content|)
    case Header(data, BadFile) => 2 + |data|
    case Header(data, Children(links)) => 2 + |data| + Weight(links)
  }

  /** Every link opens and every header fills whole blocks. */
  predicate Regular(links: seq<Link>) {
    links == [] || (RegularLink(links[0]) && Regular(links[1..]))
  }

  predicate RegularLink(l: Link) {
    match l
    case Unreadable => false
    case Header(data, File(_)) => |data| % BLOCK_SIZE == 0
    case Header(data, BadFile) => false
    case Header(data, Children(links)) => |data| % BLOCK_SIZE == 0 && Regular(links)
  }

  lemma PaddingFills(n: nat)
    ensures (n + Padding(n)) % 512 == 0 && Padding(n) < 512
  {
  }

  lemma BlocksAdd(a: nat, b: nat)
    requires a % BLOCK_SIZE == 0 && b % BLOCK_SIZE == 0
    ensures (a + b) % BLOCK_SIZE == 0
  {
  }

  /** A regular archive is whole blocks throughout and has no error in it. */
  lemma {:induction false} RegularIsAligned(links: seq<Link>)
    requires Regular(links)
    ensures |Serialize(links)| % 512 == 0 && ERR !in Serialize(links)
  {
    if links != [] {
      RegularLinkIsAligned(links[0]);
      RegularIsAligned(links[1..]);
      BlocksAdd(|SerializeLink(links[0])|, |Serialize(links[1..])|);
    }
  }

  lemma {:induction false} RegularLinkIsAligned(l: Link)
    requires RegularLink(l)
    ensures |SerializeLink(l)| % BLOCK_SIZE == 0 && ERR !in SerializeLink(l)
  {
    match l
    case Header(data, File(content)) =>
      PaddingFills(|content|);
      BlocksAdd(|data|, |content| + Padding(|content|));
      NoErr(data, content + Zeros(Padding(|content|)));
      assert SerializeLink(l) == data + (content + Zeros(Padding(|content|)));
    case Header(data, Children(links)) =>
      RegularIsAligned(links);
      BlocksAdd(|data|, |Serialize(links)|);
      NoErr(data, []);
  }

  lemma NoErr(a: seq<Byte>, b: seq<Byte>)
    ensures ERR !in a && ERR !in a + b
  {
  }

  // ---------------------------------------------------------------- the reader

  datatype Outcome = Nil | EOF | LinkFailed | FileFailed

  /** How the file reader behaves if this call asks it: it may return less than it could, tell
      the end together with the last bytes or only afterwards, return nothing, or fail. */
  datatype Chunk = Chunk(size: nat, eofWithData: bool, stall: bool, fail: bool)

  /** The file reader and the count kept by `countReader`. */
  datatype FileState = FileState(rest: seq<Byte>, n: nat)

  /** The file's remaining bytes and its padding. */
  function FileRest(f: FileState): seq<int> {
    f.rest + Zeros(Padding(f.n + |f.rest|))
  }

  /** The file part and the links not yet opened. */
  function Tail(fileRead: Option<FileState>, pad: nat, links: seq<Link>): seq<int> {
    if fileRead.Some? then FileRest(fileRead.value) + Serialize(links)
    else if pad > 0 then Zeros(pad) + Serialize(links)
    else Serialize(links)
  }

  function HeaderRest(hdrBuf: Option<seq<Byte>>): seq<int> {
    if hdrBuf.None? then [] else hdrBuf.value
  }

  function HeaderWork(hdrBuf: Option<seq<Byte>>): nat {
    if hdrBuf.None? then 0 else |hdrBuf.value| + 1
  }

  function TailWork(fileRead: Option<FileState>, pad: nat, links: seq<Link>): nat {
    (if fileRead.Some? then |fileRead.value.rest| + Padding(fileRead.value.n + |fileRead.value.rest|) + 1 else pad)
    + Weight(links)
  }

  class TarReader {
    var links: seq<Link>
    var childRead: TarReader?
    var hdrBuf: Option<seq<Byte>>
    var fileRead: Option<FileState>
    var pad: nat
    ghost var Repr: set<TarReader>
    ghost var After: seq<int>       // what is still to come after the header
    ghost var Rest: seq<int>        // what is still to come, in the order the fields are served
    ghost var Work: nat             // bounds the number of productive reads left

    ghost predicate Valid()
      reads this, Repr
      decreases Repr
      ensures Valid() ==> this in Repr
    {
      && this in Repr && pad < BLOCK_SIZE && (fileRead.Some? ==> pad == 0)
      && (childRead != null ==>
            childRead in Repr && childRead.Repr <= Repr && this !in childRead.Repr && childRead.Valid())
      && After ==
         (if childRead == null then Tail(fileRead, pad, links) else childRead.Rest + Tail(fileRead, pad, links))
      && Rest == HeaderRest(hdrBuf) + After
      && Work == HeaderWork(hdrBuf)
                 + (if childRead == null then 0 else childRead.Work + 1)
                 + TailWork(fileRead, pad, links)
    }

    constructor (links: seq<Link>)
      ensures Valid() && fresh(Repr) && Rest == Serialize(links) && Work == Weight(links)
    {
      this.links, childRead, hdrBuf, fileRead, pad := links, null, None, None, 0;
      Repr, After, Rest, Work := {this}, Serialize(links), Serialize(links), Weight(links);
    }

    /** Brings the ghost fields up to date with the file part and the links. */
    ghost method Sync()
      requires this in Repr && pad < BLOCK_SIZE && (fileRead.Some? ==> pad == 0) && hdrBuf.None? && childRead == null
      modifies this`After, this`Rest, this`Work
      ensures Valid() && Rest == Tail(fileRead, pad, links) && Work == TailWork(fileRead, pad, links)
    {
      After := Tail(fileRead, pad, links);
      Rest, Work := After, TailWork(fileRead, pad, links);
    }

    /** The same after the child has moved on. */
    ghost method SyncChild()
      requires this in Repr && pad < BLOCK_SIZE && (fileRead.Some? ==> pad == 0) && hdrBuf.None?
      requires childRead != null && this !in childRead.Repr && childRead.Valid()
      modifies this`Repr, this`After, this`Rest, this`Work
      ensures Valid() && Repr == old(Repr) + childRead.Repr
      ensures Rest == childRead.Rest + Tail(fileRead, pad, links)
      ensures Work == childRead.Work + 1 + TailWork(fileRead, pad, links)
    {
      Repr := Repr + childRead.Repr;
      After := childRead.Rest + Tail(fileRead, pad, links);
      Rest, Work := After, childRead.Work + 1 + TailWork(fileRead, pad, links);
    }

    method ReadHeader(b: array<Byte>) returns (n: nat)
      requires Valid() && hdrBuf.Some?
      modifies this`hdrBuf, this`Rest, this`Work, b
      ensures Valid() && n <= b.Length && old(Rest) == b[..n] + Rest
      ensures Work <= old(Work) && (b.Length > 0 ==> Work < old(Work))
    {
      var buf := hdrBuf.value;
      assert Rest == buf + After;
      n := Copy(b, buf);
      HeaderStep(buf, n, b[..n], After);
      SetHeader(if buf == [] then None else Some(buf[n..]));
    }

    method SetHeader(buf: Option<seq<Byte>>)
      requires Valid() && hdrBuf.Some?
      modifies this`hdrBuf, this`Rest, this`Work
      ensures Valid() && hdrBuf == buf && Rest == HeaderRest(buf) + After
      ensures Work - HeaderWork(buf) == old(Work) - HeaderWork(old(hdrBuf))
    {
      assert [] + After == After;
      Rest, Work := HeaderRest(buf) + After, Work - HeaderWork(hdrBuf) + HeaderWork(buf);
      hdrBuf := buf;
    }

    method ReadPad(b: array<Byte>) returns (n: nat)
      requires Valid() && hdrBuf.None? && childRead == null && fileRead.None? && pad > 0
      modifies this`pad, this`After, this`Rest, this`Work, b
      ensures Valid() && n <= b.Length && old(Rest) == b[..n] + Rest
      ensures Work <= old(Work) && (b.Length > 0 ==> Work < old(Work))
    {
      assert Rest == Tail(None, pad, links) && Work == pad + Weight(links);
      n := Copy(b, Zeros(pad));
      PadStep(pad, n, b[..n], links);
      pad := pad - n;
      Sync();
    }

    /** Passes the file's bytes on and, at its end, fixes the padding from the bytes counted. */
    method ReadFile(b: array<Byte>, chunk: Chunk) returns (n: nat, err: Outcome)
      requires Valid() && hdrBuf.None? && childRead == null && fileRead.Some?
      modifies this`fileRead, this`pad, this`After, this`Rest, this`Work, b
      ensures Valid() && n <= b.Length && err == if chunk.fail then FileFailed else Nil
      ensures old(Rest) == b[..n] + Rest
      ensures Work <= old(Work) && (err.Nil? && b.Length > 0 && !chunk.stall ==> Work < old(Work))
    {
      var f := fileRead.value;
      var most := Min(b.Length, |f.rest|);
      var eof := f.rest == [] && !chunk.stall;
      n := if chunk.stall || most == 0 then 0 else if 1 <= chunk.size <= most then chunk.size else most;
      n := CopyFile(b, n);
      if chunk.fail {
        return n, FileFailed;
      }
      if eof || (n > 0 && |f.rest| == n && chunk.eofWithData) {
        EndFile();
      }
      return n, Nil;
    }

    method CopyFile(b: array<Byte>, want: nat) returns (n: nat)
      requires Valid() && hdrBuf.None? && childRead == null && fileRead.Some?
               && want <= Min(b.Length, |fileRead.value.rest|)
      modifies this`fileRead, this`After, this`Rest, this`Work, b
      ensures Valid() && n == want && old(Rest) == b[..n] + Rest && Work == old(Work) - n
      ensures fileRead.Some? && fileRead.value.rest == old(fileRead.value.rest)[n..]
    {
      var f := fileRead.value;
      assert Rest == FileRest(f) + Serialize(links);
      n := Copy(b, f.rest[..want]);
      var f' := FileState(f.rest[n..], f.n + n);
      FileStep(f, f', b[..n], Serialize(links));
      SetFile(f');
    }

    method SetFile(f: FileState)
      requires Valid() && hdrBuf.None? && childRead == null && fileRead.Some?
      requires |f.rest| <= |fileRead.value.rest| && f.n + |f.rest| == fileRead.value.n + |fileRead.value.rest|
      modifies this`fileRead, this`After, this`Rest, this`Work
      ensures Valid() && fileRead == Some(f) && Rest == FileRest(f) + Serialize(links)
      ensures Work == old(Work) - (|old(fileRead.value).rest| - |f.rest|)
    {
      fileRead := Some(f);
      Sync();
    }

    method EndFile()
      requires Valid() && hdrBuf.None? && childRead == null && fileRead.Some? && fileRead.value.rest == []
      modifies this`fileRead, this`pad, this`After, this`Rest, this`Work
      ensures Valid() && Rest == old(Rest) && Work == old(Work) - 1
      ensures fileRead.None? && (old(fileRead).value.n + pad) % 512 == 0 && pad < 512
    {
      EndStep(fileRead.value, links);
      PaddingFills(fileRead.value.n);
      pad := Padding(fileRead.value.n);
      fileRead := None;
      Sync();
    }

    /** Takes the next link apart. A "data" link that does not open fails the read, but the
        header has been put in place by then. */
    method NextLink() returns (err: bool)
      requires Valid() && hdrBuf.None? && childRead == null && fileRead.None? && pad == 0 && links != []
      modifies this
      ensures Valid() && fresh(Repr - old(Repr)) && Work <= old(Work)
      ensures old(Rest) == (if err then [ERR] else []) + Rest
      ensures if err then Work < old(Work) else hdrBuf.Some?
    {
      var next := links[0];
      assert Work == LinkWeight(next) + Weight(links[1..]) && Rest == SerializeLink(next) + Serialize(links[1..]);
      links := links[1..];
      if next.Unreadable? {
        Sync();
        return true;
      }
      if next.body.BadFile? {
        Regroup([ERR], next.data, SerializeLink(next), Serialize(links));
        HeaderOnly(next.data);
        return true;
      }
      Open(next);
      return false;
    }

    /** Puts a link that opens in place: its header, then its file or a reader for its children. */
    method Open(next: Link)
      requires next.Header? && !next.body.BadFile?
      requires this in Repr && hdrBuf.None? && childRead == null && fileRead.None? && pad == 0
      requires Work == LinkWeight(next) + Weight(links) && Rest == SerializeLink(next) + Serialize(links)
      modifies this
      ensures Valid() && fresh(Repr - old(Repr)) && Work <= old(Work) && Rest == old(Rest) && hdrBuf.Some?
    {
      if next.body.File? {
        OpenFile(next);
      } else if next.body.links != [] {
        OpenChildren(next);
      } else {
        assert SerializeLink(next) == next.data;
        HeaderOnly(next.data);
      }
    }

    /** A header with nothing below it. */
    method HeaderOnly(data: seq<Byte>)
      requires this in Repr && hdrBuf.None? && childRead == null && fileRead.None? && pad == 0
      modifies this`hdrBuf, this`After, this`Rest, this`Work
      ensures Valid() && hdrBuf.Some? && Rest == data + Serialize(links) && Work == |data| + 1 + Weight(links)
    {
      Sync();
      hdrBuf := Some(data);
      Rest, Work := data + After, Work + |data| + 1;
    }

    method OpenFile(next: Link)
      requires next.Header? && next.body.File?
      requires this in Repr && hdrBuf.None? && childRead == null && fileRead.None? && pad == 0
      requires Work == LinkWeight(next) + Weight(links) && Rest == SerializeLink(next) + Serialize(links)
      modifies this`hdrBuf, this`fileRead, this`After
      ensures Valid() && hdrBuf.Some?
    {
      var f := FileState(next.body.content, 0);
      hdrBuf, fileRead := Some(next.data), Some(f);
      After := FileRest(f) + Serialize(links);
      assert SerializeLink(next) == next.data + FileRest(f);
      Regroup(next.data, FileRest(f), SerializeLink(next), Serialize(links));
    }

    method OpenChildren(next: Link)
      requires next.Header? && next.body.Children?
      requires this in Repr && hdrBuf.None? && childRead == null && fileRead.None? && pad == 0
      requires Work == LinkWeight(next) + Weight(links) && Rest == SerializeLink(next) + Serialize(links)
      modifies this`hdrBuf, this`childRead, this`Repr, this`After
      ensures Valid() && fresh(Repr - old(Repr)) && hdrBuf.Some?
    {
      var child := new TarReader(next.body.links);
      hdrBuf, childRead := Some(next.data), child;
      Repr := Repr + child.Repr;
      After := child.Rest + Serialize(links);
      Regroup(next.data, child.Rest, SerializeLink(next), Serialize(links));
    }

    method ReadChild(b: array<Byte>, chunk: Chunk) returns (n: nat, err: Outcome)
      requires Valid() && hdrBuf.None? && childRead != null
      modifies Repr, b
      ensures Valid() && fresh(Repr - old(Repr)) && n <= b.Length && (err.FileFailed? ==> chunk.fail)
      ensures err.EOF? ==> n == 0 && hdrBuf.None? && childRead != null && childRead.Rest == []
      ensures old(Rest) == b[..n] + (if err.LinkFailed? then [ERR] else []) + Rest
      ensures Work <= old(Work) && (err.LinkFailed? || (err.Nil? && b.Length > 0 && !chunk.stall) ==> Work < old(Work))
      decreases Repr, 0
    {
      ghost var child, tail := childRead.Rest, Tail(fileRead, pad, links);
      n, err := childRead.Read(b, chunk);
      Regroup(b[..n] + (if err.LinkFailed? then [ERR] else []), childRead.Rest, child, tail);
      SyncChild();
    }

    method EndChild()
      requires Valid() && hdrBuf.None? && childRead != null && childRead.Rest == []
      modifies this
      ensures Valid() && Repr == old(Repr) && Rest == old(Rest) && Work < old(Work)
    {
      After := Tail(fileRead, pad, links);
      assert [] + After == After;
      Work := Work - childRead.Work - 1;
      childRead := null;
    }

    /** `Read`: whatever has priority serves the buffer. Nothing is lost, added or reordered,
        not even when reading goes on after an error. */
    method Read(b: array<Byte>, chunk: Chunk) returns (n: nat, err: Outcome)
      requires Valid()
      modifies Repr, b
      ensures Valid() && fresh(Repr - old(Repr)) && n <= b.Length
      ensures old(Rest) == b[..n] + (if err.LinkFailed? then [ERR] else []) + Rest
      ensures err.EOF? ==> n == 0 && Rest == []
      ensures err.FileFailed? ==> chunk.fail
      ensures Work <= old(Work) && (err.LinkFailed? || (err.Nil? && b.Length > 0 && !chunk.stall) ==> Work < old(Work))
      decreases Repr, 1
    {
      if hdrBuf.Some? {
        n := ReadHeader(b);
        return n, Nil;
      }
      if childRead != null {
        n, err := ReadChild(b, chunk);
        if err == EOF {
          EndChild();
          err := Nil;
        }
        return;
      }
      if fileRead.Some? {
        n, err := ReadFile(b, chunk);
        return;
      }
      if pad > 0 {
        n := ReadPad(b);
        return n, Nil;
      }
      if links == [] {
        return 0, EOF;
      }
      var bad := NextLink();
      if bad {
        return 0, LinkFailed;
      }
      n := ReadHeader(b);
      return n, Nil;
    }
  }

  lemma Regroup(x: seq<int>, y: seq<int>, xy: seq<int>, z: seq<int>)
    requires xy == x + y
    ensures xy + z == x + (y + z)
  {
  }

  lemma HeaderStep(buf: seq<Byte>, n: nat, out: seq<Byte>, rest: seq<int>)
    requires n <= |buf| && out == buf[..n]
    ensures buf + rest == out + (buf[n..] + rest) && (buf == [] ==> buf + rest == out + ([] + rest))
  {
    Regroup(out, buf[n..], buf, rest);
  }

  lemma PadStep(pad: nat, n: nat, out: seq<Byte>, links: seq<Link>)
    requires 0 < pad && n <= pad && out == Zeros(pad)[..n]
    ensures Tail(None, pad, links) == out + Tail(None, pad - n, links)
  {
    assert Zeros(pad) == out + Zeros(pad - n);
    Regroup(out, Zeros(pad - n), Zeros(pad), Serialize(links));
    assert pad == n ==> Zeros(0) + Serialize(links) == Serialize(links);
  }

  lemma EndStep(f: FileState, links: seq<Link>)
    requires f.rest == []
    ensures Tail(Some(f), 0, links) == Tail(None, Padding(f.n), links)
    ensures TailWork(Some(f), 0, links) == TailWork(None, Padding(f.n), links) + 1
  {
    assert FileRest(f) == Zeros(Padding(f.n));
    assert Padding(f.n) == 0 ==> Zeros(0) + Serialize(links) == Serialize(links);
  }

  lemma FileStep(f: FileState, f': FileState, out: seq<Byte>, rest: seq<int>)
    requires f.rest == out + f'.rest && f'.n == f.n + |out|
    ensures FileRest(f) + rest == out + (FileRest(f') + rest)
  {
  }

  method Copy(b: array<Byte>, src: seq<Byte>) returns (n: nat)
    modifies b
    ensures n == Min(b.Length, |src|) && b[..n] == src[..n]
  {
    n := Min(b.Length, |src|);
    forall i | 0 <= i < n {
      b[i] := src[i];
    }
  }

  // ---------------------------------------------------------------- whole exports

  datatype Call = Call(size: nat, chunk: Chunk)

  method ExportTar(rootData: string, links: seq<Link>) returns (r: Option<TarReader>)
    ensures r.Some? <==> rootData == "ipfs/tar"
    ensures r.Some? ==>
                && r.value.Valid() && fresh(r.value.Repr)
                && r.value.Rest == Serialize(links) && r.value.Work == Weight(links)
  {
    if rootData != "ipfs/tar" {
      return None;
    }
    var tr := new TarReader(links);
    return Some(tr);
  }

  /** One read into a buffer of its own. */
  method Pull(tr: TarReader, call: Call) returns (more: seq<int>, eof: bool)
    requires tr.Valid()
    modifies tr.Repr
    ensures tr.Valid() && fresh(tr.Repr - old(tr.Repr))
    ensures old(tr.Rest) == more + tr.Rest && (eof ==> tr.Rest == [])
    ensures tr.Work <= old(tr.Work)
    ensures !eof && call.size > 0 && !call.chunk.stall && !call.chunk.fail ==> tr.Work < old(tr.Work)
  {
    var b := new Byte[call.size];
    var n, err := tr.Read(b, call.chunk);
    more, eof := b[..n], err.EOF?;
    more := more + if err.LinkFailed? then [ERR] else [];
  }

  /** Any sequence of reads, with buffers of any size and a file reader that stalls and fails as it
      likes, returns a prefix of the serialization, and all of it once EOF is seen. */
  method ReadCalls(links: seq<Link>, calls: seq<Call>) returns (out: seq<int>, eof: bool)
    ensures out <= Serialize(links)
    ensures eof ==> out == Serialize(links)
  {
    var tr := new TarReader(links);
    out, eof := [], false;
    var i := 0;
    while i < |calls| && !eof
      invariant tr.Valid() && fresh(tr.Repr) && i <= |calls|
      invariant Serialize(links) == out + tr.Rest && (eof ==> tr.Rest == [])
    {
      ghost var before := tr.Rest;
      var more, end := Pull(tr, calls[i]);
      Regroup3(out, more, tr.Rest, before);
      out, eof := out + more, end;
      i := i + 1;
    }
  }

  lemma Regroup3(x: seq<int>, y: seq<int>, z: seq<int>, yz: seq<int>)
    requires yz == y + z
    ensures x + yz == x + y + z
  {
  }

  /** With non-empty buffers and a file reader that neither stalls nor fails, reading ends after
      boundedly many calls and yields exactly the serialization. */
  method ReadToEnd(links: seq<Link>, calls: nat -> Call) returns (out: seq<int>, count: nat)
    requires forall i :: calls(i).size > 0 && !calls(i).chunk.stall && !calls(i).chunk.fail
    ensures out == Serialize(links) && count <= Weight(links) + 1
  {
    var tr := new TarReader(links);
    out, count := [], 0;
    var eof := false;
    while !eof
      invariant tr.Valid() && fresh(tr.Repr)
      invariant Serialize(links) == out + tr.Rest && (eof ==> tr.Rest == [])
      invariant count + tr.Work <= Weight(links) + if eof then 1 else 0
      decreases !eof, tr.Work
    {
      ghost var before := tr.Rest;
      var more, end := Pull(tr, calls(count));
      Regroup3(out, more, tr.Rest, before);
      out, eof, count := out + more, end, count + 1;
    }
  }
}
