/** Reading a byte range across several files (core/commands/cat.go). */
module Cat {
  import opened Wrappers

  /** What a path resolves to, and whether its size can be had and its offset sought. */
  datatype Node = Unresolved | Directory | Unsupported | File(content: seq<Byte>, sizeFails: bool, seekFails: bool)

  datatype Error = GetError | IsDir | NotSupported | SizeError | SeekError

  function Content(n: Node): seq<Byte> {
    if n.File? then n.content else []
  }

  /** The first i files one after the other. */
  function First(nodes: seq<Node>, i: nat): seq<Byte>
    requires i <= |nodes|
  {
    if i == 0 then [] else First(nodes, i - 1) + Content(nodes[i - 1])
  }

  function All(nodes: seq<Node>): seq<Byte> {
    First(nodes, |nodes|)
  }

  function Concat(parts: seq<seq<Byte>>): seq<Byte> {
    if parts == [] then [] else Concat(parts[..|parts| - 1]) + parts[|parts| - 1]
  }

  /** At most `max` bytes from `offset` on; -1 means no limit. */
  function Range(s: seq<Byte>, offset: nat, max: int): seq<Byte> {
    var from := Min(offset, |s|);
    if max < 0 then s[from..] else s[from..Min(from + max, |s|)]
  }

  /** Where the file begins that holds the offset, counted from file i. */
  function FileStart(nodes: seq<Node>, i: nat, offset: nat): nat
    requires i <= |nodes|
    decreases |nodes| - i
  {
    if i < |nodes| && offset > |Content(nodes[i])| then
      |Content(nodes[i])| + FileStart(nodes, i + 1, offset - |Content(nodes[i])|)
    else 0
  }

  /** Where reading starts: without seeking, at the start of the file that holds the offset. */
  function Start(nodes: seq<Node>, offset: nat, seek: bool): nat {
    if seek then offset else FileStart(nodes, 0, offset)
  }

  lemma {:induction false} FirstIsPrefix(nodes: seq<Node>, i: nat, j: nat)
    requires i <= j <= |nodes|
    ensures First(nodes, i) <= First(nodes, j)
    decreases j
  {
    if i < j {
      FirstIsPrefix(nodes, i, j - 1);
    }
  }

  lemma ConcatSnoc(parts: seq<seq<Byte>>, p: seq<Byte>)
    ensures Concat(parts + [p]) == Concat(parts) + p
  {
  }

  /** A middle part that starts at `start` and is as long as the limit, or ends the whole. */
  lemma IsRange(s: seq<Byte>, pre: seq<Byte>, x: seq<Byte>, y: seq<Byte>, max: int)
    requires s == pre + x + y
    requires |x| == max || (y == [] && (max < 0 || |x| <= max))
    ensures x == Range(s, |pre|, max)
  {
  }

  /** Three bytes from offset 1 of two files of two bytes: with seeking the last of the first file and
      both of the second, without it all four cut to three. */
  lemma RangeAcrossFiles(a: Byte, b: Byte, c: Byte, d: Byte)
    ensures var nodes := [File([a, b], false, false), File([c, d], false, false)];
            && All(nodes) == [a, b, c, d]
            && Range(All(nodes), Start(nodes, 1, true), 3) == [b, c, d]
            && Range(All(nodes), Start(nodes, 1, false), 3) == [a, b, c]
            && Range(All(nodes), Start(nodes, 3, false), 3) == [c, d]
  {
    var nodes := [File([a, b], false, false), File([c, d], false, false)];
    assert First(nodes, 1) == [a, b];
    assert All(nodes) == [a, b, c, d];
    assert FileStart(nodes, 1, 1) == 0;
  }

  /** How much of the offset is left when file k is reached. */
  function Left(nodes: seq<Node>, k: nat, from: nat): nat
    requires k <= |nodes|
  {
    if from > |First(nodes, k)| then from - |First(nodes, k)| else 0
  }

  /** Whether opening a file fails; a file the offset lies beyond is not sought in. */
  predicate Fails(n: Node, offset: nat, seek: bool) {
    !n.File? || n.sizeFails || (seek && n.seekFails && offset <= |n.content|)
  }

  /** File k cannot be opened and the range is not filled before it. */
  ghost predicate BlockedAt(nodes: seq<Node>, k: nat, from: nat, seek: bool, max: int) {
    && k < |nodes| && Fails(nodes[k], Left(nodes, k, from), seek)
    && (max < 0 || |First(nodes, k)| < Start(nodes, from, seek) + max)
  }

  ghost predicate Blocked(nodes: seq<Node>, from: nat, seek: bool, max: int) {
    exists k: nat :: BlockedAt(nodes, k, from, seek, max)
  }

  ghost predicate ClearBefore(nodes: seq<Node>, i: nat, from: nat, seek: bool, max: int) {
    forall k: nat :: k < i ==> !BlockedAt(nodes, k, from, seek, max)
  }

  /** Opens a file at the offset, unless the offset lies beyond it. */
  method Open(node: Node, offset: nat, seek: bool) returns (err: Option<Error>, skip: bool, count: nat)
    ensures err.Some? <==> Fails(node, offset, seek)
    ensures err == Some(GetError) <==> node.Unresolved?
    ensures err == Some(IsDir) <==> node.Directory?
    ensures err == Some(NotSupported) <==> node.Unsupported?
    ensures err == Some(SizeError) <==> node.File? && node.sizeFails
    ensures err.None? ==> (skip <==> offset > |node.content|) && (!skip ==> count == if seek then offset else 0)
  {
    skip, count := false, 0;
    match node {
      case Unresolved => return Some(GetError), false, 0;
      case Directory => return Some(IsDir), false, 0;
      case Unsupported => return Some(NotSupported), false, 0;
      case File(content, sizeFails, seekFails) =>
        if sizeFails {
          return Some(SizeError), false, 0;
        }
        if offset > |content| {
          return None, true, 0;
        }
        if seek {
          if seekFails {
            return Some(SeekError), false, 0;
          }
          count := offset;
        }
        return None, false, count;
    }
  }

  /** Appends a reader for the rest of a file, cut off where the limit is reached. */
  method Take(content: seq<Byte>, count: nat, readers: seq<seq<Byte>>, length: nat, max: int)
    returns (more: seq<seq<Byte>>, total: nat, full: bool)
    requires count <= |content| && length == |Concat(readers)| && (max < 0 || length <= max)
    ensures full <==> max > 0 && length + (|content| - count) >= max
    ensures Concat(more) == Concat(readers) + if full then content[count..][..max - length] else content[count..]
    ensures total == |Concat(more)|
  {
    var size := |content| - count;
    total := length + size;
    full := max > 0 && total >= max;
    var r := content[count..];
    if full {
      var overshoot := total - max;
      if overshoot != 0 {
        r := r[..size - overshoot];
        total := max;
      }
    }
    more := readers + [r];
    ConcatSnoc(readers, r);
  }

  /** The loop's state: the bytes passed over, the bytes read, the offset left. */
  datatype Loop = Loop(pre: seq<Byte>, read: seq<Byte>, offset: nat, started: bool)

  /** Before file i: the files so far are the bytes passed over and the bytes read. */
  ghost predicate LoopOk(nodes: seq<Node>, i: nat, from: nat, start: nat, max: int, st: Loop) {
    && i <= |nodes| && First(nodes, i) == st.pre + st.read && st.offset == Left(nodes, i, from)
    && if st.started then st.offset == 0 && |st.pre| == start && (max < 0 || |st.read| < max)
       else st.read == [] && st.offset + |st.pre| == from
            && FileStart(nodes, 0, from) == |st.pre| + FileStart(nodes, i, st.offset)
  }

  /** The readers together are the asked range of the concatenated files, and the returned length
      is its length. The call fails if and only if a file the range reaches cannot be opened. */
  method ReadRange(nodes: seq<Node>, from: nat, max: int, seek: bool)
    returns (readers: seq<seq<Byte>>, length: nat, err: Option<Error>)
    requires max >= -1
    ensures err.Some? <==> max != 0 && Blocked(nodes, from, seek, max)
    ensures Concat(readers) == if max == 0 || err.Some? then [] else Range(All(nodes), Start(nodes, from, seek), max)
    ensures length == |Concat(readers)|
  {
    if max == 0 {
      return [], 0, None;
    }
    readers, length, err := Gather(nodes, from, max, seek);
  }

  /** The loop over the files. */
  method Gather(nodes: seq<Node>, from: nat, max: int, seek: bool)
    returns (readers: seq<seq<Byte>>, length: nat, err: Option<Error>)
    requires max == -1 || max > 0
    ensures err.Some? <==> Blocked(nodes, from, seek, max)
    ensures Concat(readers) == if err.Some? then [] else Range(All(nodes), Start(nodes, from, seek), max)
    ensures length == |Concat(readers)|
  {
    readers, length, err := [], 0, None;
    var offset: nat, full := from, false;
    ghost var st := Loop([], [], from, false);
    for i := 0 to |nodes|
      invariant err.None? && !full && Running(nodes, i, from, seek, max, st, readers, length, offset)
    {
      err, full, readers, length, offset, st := Visit(nodes, i, from, seek, max, readers, length, offset, st);
      if err.Some? {
        return [], 0, err;
      }
      if full {
        return;
      }
    }
    Ends(nodes, from, seek, max, st);
  }

  ghost predicate Running(nodes: seq<Node>, i: nat, from: nat, seek: bool, max: int, st: Loop,
                          readers: seq<seq<Byte>>, length: nat, offset: nat)
  {
    && Concat(readers) == st.read && length == |st.read| && offset == st.offset
    && LoopOk(nodes, i, from, Start(nodes, from, seek), max, st) && ClearBefore(nodes, i, from, seek, max)
  }

  ghost predicate Done(nodes: seq<Node>, from: nat, seek: bool, max: int, readers: seq<seq<Byte>>, length: nat) {
    && Concat(readers) == Range(All(nodes), Start(nodes, from, seek), max) && length == |Concat(readers)|
    && !Blocked(nodes, from, seek, max)
  }

  /** One round of the loop: the file fails, is passed over, ends the read, or is read to its end. */
  method Visit(nodes: seq<Node>, i: nat, from: nat, seek: bool, max: int,
               readers: seq<seq<Byte>>, length: nat, offset: nat, ghost st: Loop)
    returns (err: Option<Error>, full: bool, more: seq<seq<Byte>>, total: nat, left: nat, ghost next: Loop)
    requires i < |nodes| && (max == -1 || max > 0) && Running(nodes, i, from, seek, max, st, readers, length, offset)
    ensures err.Some? ==> Blocked(nodes, from, seek, max)
    ensures err.None? && full ==> Done(nodes, from, seek, max, more, total)
    ensures err.None? && !full ==> Running(nodes, i + 1, from, seek, max, next, more, total, left)
  {
    full, more, total, left, next := false, readers, length, offset, st;
    var skip, count;
    err, skip, count := Open(nodes[i], offset, seek);
    if err.Some? {
      IsBlocked(nodes, i, from, seek, max, st);
    } else if skip {
      Skips(nodes, i, from, Start(nodes, from, seek), max, st);
      left := offset - |nodes[i].content|;
      next := Loop(First(nodes, i + 1), [], left, false);
    } else {
      full, more, total, next := Append(nodes, i, from, seek, max, readers, length, count, st);
      left := 0;
    }
  }

  /** The file is read from `count` on. */
  method Append(nodes: seq<Node>, i: nat, from: nat, seek: bool, max: int,
                readers: seq<seq<Byte>>, length: nat, count: nat, ghost st: Loop)
    returns (full: bool, more: seq<seq<Byte>>, total: nat, ghost next: Loop)
    requires AtFile(nodes, i, from, seek, max, st, count) && Concat(readers) == st.read && length == |st.read|
    requires ClearBefore(nodes, i + 1, from, seek, max)
    ensures full ==> Done(nodes, from, seek, max, more, total)
    ensures !full ==> Running(nodes, i + 1, from, seek, max, next, more, total, 0)
  {
    var content := nodes[i].content;
    more, total, full := Take(content, count, readers, length, max);
    next := Loop(st.pre + content[..count], st.read + content[count..], 0, true);
    if full {
      Fills(nodes, i, from, seek, max, st, count);
    } else {
      Continues(nodes, i, from, seek, max, st, count);
    }
  }

  lemma IsBlocked(nodes: seq<Node>, i: nat, from: nat, seek: bool, max: int, st: Loop)
    requires LoopOk(nodes, i, from, Start(nodes, from, seek), max, st) && i < |nodes| && max != 0
    requires Fails(nodes[i], st.offset, seek)
    ensures Blocked(nodes, from, seek, max)
  {
    assert BlockedAt(nodes, i, from, seek, max);
  }

  lemma Skips(nodes: seq<Node>, i: nat, from: nat, start: nat, max: int, st: Loop)
    requires LoopOk(nodes, i, from, start, max, st) && i < |nodes| && nodes[i].File? && st.offset > |nodes[i].content|
    ensures st.read == [] && LoopOk(nodes, i + 1, from, start, max,
                                    Loop(First(nodes, i + 1), [], st.offset - |nodes[i].content|, false))
  {
  }

  ghost predicate AtFile(nodes: seq<Node>, i: nat, from: nat, seek: bool, max: int, st: Loop, count: nat) {
    && LoopOk(nodes, i, from, Start(nodes, from, seek), max, st) && i < |nodes| && nodes[i].File?
    && st.offset <= |nodes[i].content| && count == (if seek then st.offset else 0) && max != 0
  }

  lemma Regroup(a: seq<Byte>, r: seq<Byte>, c: seq<Byte>, k: nat)
    requires k <= |c| && (r == [] || k == 0)
    ensures a + r + c == a + c[..k] + (r + c[k..])
  {
  }

  /** Reading file i from `count` on starts where reading should start. */
  lemma Splits(nodes: seq<Node>, i: nat, from: nat, seek: bool, max: int, st: Loop, count: nat)
    requires AtFile(nodes, i, from, seek, max, st, count)
    ensures var content := nodes[i].content;
            && First(nodes, i + 1) == st.pre + content[..count] + (st.read + content[count..])
            && |st.pre| + count == Start(nodes, from, seek)
  {
    Regroup(st.pre, st.read, nodes[i].content, count);
  }

  /** Cutting the last file short at the limit. */
  lemma CutShort(s: seq<Byte>, first: seq<Byte>, pre: seq<Byte>, r: seq<Byte>, c: seq<Byte>, max: int)
    requires first <= s && first == pre + (r + c) && |r| <= max <= |r| + |c|
    ensures r + c[..max - |r|] == Range(s, |pre|, max)
  {
    var keep := max - |r|;
    var y := c[keep..] + s[|first|..];
    assert c == c[..keep] + c[keep..];
    assert s == pre + (r + c[..keep]) + y;
    IsRange(s, pre, r + c[..keep], y, max);
  }

  lemma Fills(nodes: seq<Node>, i: nat, from: nat, seek: bool, max: int, st: Loop, count: nat)
    requires AtFile(nodes, i, from, seek, max, st, count)
    requires 0 < max && |st.read| <= max <= |st.read| + |nodes[i].content| - count
    requires ClearBefore(nodes, i + 1, from, seek, max)
    ensures st.read + nodes[i].content[count..][..max - |st.read|] == Range(All(nodes), Start(nodes, from, seek), max)
    ensures !Blocked(nodes, from, seek, max)
  {
    var content := nodes[i].content;
    Splits(nodes, i, from, seek, max, st, count);
    FirstIsPrefix(nodes, i + 1, |nodes|);
    CutShort(All(nodes), First(nodes, i + 1), st.pre + content[..count], st.read, content[count..], max);
    NotBlocked(nodes, i + 1, from, seek, max);
  }

  /** Once the range is full the files after it do not matter. */
  lemma NotBlocked(nodes: seq<Node>, i: nat, from: nat, seek: bool, max: int)
    requires i <= |nodes| && ClearBefore(nodes, i, from, seek, max)
    requires i == |nodes| || (0 < max && |First(nodes, i)| >= Start(nodes, from, seek) + max)
    ensures !Blocked(nodes, from, seek, max)
  {
    forall k: nat ensures !BlockedAt(nodes, k, from, seek, max) {
      if i <= k < |nodes| {
        FirstIsPrefix(nodes, i, k);
      }
    }
  }

  lemma Continues(nodes: seq<Node>, i: nat, from: nat, seek: bool, max: int, st: Loop, count: nat)
    requires AtFile(nodes, i, from, seek, max, st, count)
    requires max < 0 || |st.read| + |nodes[i].content| - count < max
    ensures var content := nodes[i].content;
            LoopOk(nodes, i + 1, from, Start(nodes, from, seek), max,
                   Loop(st.pre + content[..count], st.read + content[count..], 0, true))
  {
    Splits(nodes, i, from, seek, max, st, count);
  }

  lemma Ends(nodes: seq<Node>, from: nat, seek: bool, max: int, st: Loop)
    requires LoopOk(nodes, |nodes|, from, Start(nodes, from, seek), max, st) && max != 0
    requires ClearBefore(nodes, |nodes|, from, seek, max)
    ensures st.read == Range(All(nodes), Start(nodes, from, seek), max)
    ensures !Blocked(nodes, from, seek, max)
  {
    NotBlocked(nodes, |nodes|, from, seek, max);
    if st.started {
      assert All(nodes) == st.pre + st.read + [];
      IsRange(All(nodes), st.pre, st.read, [], max);
    }
  }

  lemma {:induction false} FileStartBefore(nodes: seq<Node>, i: nat, offset: nat)
    requires i <= |nodes|
    ensures var left := |All(nodes)| - |First(nodes, i)|;
            if offset > left then FileStart(nodes, i, offset) == left
            else offset > 0 ==> FileStart(nodes, i, offset) < offset
    decreases |nodes| - i
  {
    FirstIsPrefix(nodes, i, |nodes|);
    if i < |nodes| {
      FirstIsPrefix(nodes, i + 1, |nodes|);
      if offset > |Content(nodes[i])| {
        FileStartBefore(nodes, i + 1, offset - |Content(nodes[i])|);
      }
    }
  }

  /** As many nodes, with contents of the same sizes. */
  ghost predicate SameSizes(nodes: seq<Node>, others: seq<Node>) {
    |nodes| == |others| && forall i :: 0 <= i < |nodes| ==> |Content(nodes[i])| == |Content(others[i])|
  }

  lemma {:induction false} SameFirst(nodes: seq<Node>, others: seq<Node>, i: nat)
    requires SameSizes(nodes, others) && i <= |nodes|
    ensures |First(nodes, i)| == |First(others, i)|
  {
    if i > 0 {
      SameFirst(nodes, others, i - 1);
    }
  }

  lemma {:induction false} SameFileStart(nodes: seq<Node>, others: seq<Node>, i: nat, offset: nat)
    requires SameSizes(nodes, others) && i <= |nodes|
    ensures FileStart(nodes, i, offset) == FileStart(others, i, offset)
    decreases |nodes| - i
  {
    if i < |nodes| && offset > |Content(nodes[i])| {
      SameFileStart(nodes, others, i + 1, offset - |Content(nodes[i])|);
    }
  }

  /** All bytes zero but the one at position `at`, where the sequence starts at position `base`. */
  ghost predicate OneBit(s: seq<Byte>, base: nat, at: nat) {
    forall j :: 0 <= j < |s| ==> s[j] == if base + j == at then 1 else 0
  }

  lemma OneBitJoin(s: seq<Byte>, t: seq<Byte>, at: nat)
    requires OneBit(s, 0, at) && OneBit(t, |s|, at)
    ensures OneBit(s + t, 0, at)
  {
  }

  /** Files of the given sizes with one bit set at one position of the whole. */
  lemma {:induction false} Marked(nodes: seq<Node>, n: nat, at: nat) returns (others: seq<Node>)
    requires n <= |nodes|
    ensures |others| == n && (forall i :: 0 <= i < n ==> |Content(nodes[i])| == |Content(others[i])|)
    ensures OneBit(First(others, n), 0, at)
  {
    others := [];
    if n > 0 {
      var before := Marked(nodes, n - 1, at);
      var base := |First(before, n - 1)|;
      var content: seq<Byte> := seq(|Content(nodes[n - 1])|, j requires 0 <= j => if base + j == at then 1 else 0);
      others := before + [File(content, false, false)];
      FirstOfMore(before, File(content, false, false), n - 1);
      OneBitJoin(First(before, n - 1), content, at);
    }
  }

  lemma {:induction false} FirstOfMore(nodes: seq<Node>, x: Node, i: nat)
    requires i <= |nodes|
    ensures First(nodes + [x], i) == First(nodes, i)
  {
    if i > 0 {
      FirstOfMore(nodes, x, i - 1);
    }
  }

  /** What is read without seeking is the asked range. */
  predicate NoSeekRight(nodes: seq<Node>, offset: nat, max: int) {
    Range(All(nodes), Start(nodes, offset, false), max) == Range(All(nodes), Start(nodes, offset, true), max)
  }

  lemma RangesDiffer(s: seq<Byte>, start: nat, offset: nat, max: int)
    requires OneBit(s, 0, start) && start < offset <= |s| && max != 0
    ensures Range(s, start, max) != Range(s, offset, max)
  {
    assert Range(s, start, max)[0] == 1;
    assert offset < |s| ==> Range(s, offset, max)[0] == 0;
  }

  lemma NoSeekWrong(nodes: seq<Node>, offset: nat, max: int) returns (others: seq<Node>)
    requires max != 0 && 0 < offset <= |All(nodes)|
    ensures SameSizes(nodes, others) && !NoSeekRight(others, offset, max)
  {
    var start := FileStart(nodes, 0, offset);
    others := Marked(nodes, |nodes|, start);
    FileStartBefore(nodes, 0, offset);
    SameFirst(nodes, others, |nodes|);
    SameFileStart(nodes, others, 0, offset);
    RangesDiffer(All(others), start, offset, max);
  }

  /** Decrypting or showing metadata switches seeking off. What is read is then the asked range, whatever
      files of these sizes hold, if and only if nothing is asked for, the offset is zero or it lies beyond
      all files. */
  lemma NoSeekRightIff(nodes: seq<Node>, offset: nat, max: int)
    ensures (forall others :: SameSizes(nodes, others) ==> NoSeekRight(others, offset, max))
            <==> max == 0 || offset == 0 || offset > |All(nodes)|
  {
    if max != 0 && 0 < offset <= |All(nodes)| {
      var others := NoSeekWrong(nodes, offset, max);
    } else {
      forall others | SameSizes(nodes, others) ensures NoSeekRight(others, offset, max) {
        SameFirst(nodes, others, |nodes|);
        FileStartBefore(others, 0, offset);
      }
    }
  }
}
