/**
 The relay of a remote event stream: bytes arrive in arbitrary chunks under a size limit and are
 handed to the governor block by block, a block ending at the first LF LF. What comes out is what
 splitting the whole stream at once would give.
 */
module SseReframer {
  import opened Wrappers

  newtype Byte = b: int | 0 <= b < 256

  const LF: Byte := 10

  predicate BlankLineAt(s: seq<Byte>, i: nat) {
    i + 1 < |s| && s[i] == 10 && s[i + 1] == 10
  }

  /** The search for LF LF, window by window from `i` on. */
  function BoundaryFrom(s: seq<Byte>, i: nat): (r: Option<nat>)
    ensures r.Some? ==> i <= r.value && r.value + 1 < |s|
    decreases |s| - i
  {
    if i + 1 >= |s| then None
    else if s[i] == LF && s[i + 1] == LF then Some(i)
    else BoundaryFrom(s, i + 1)
  }

  function Boundary(s: seq<Byte>): (r: Option<nat>)
    ensures r.Some? ==> r.value + 1 < |s|
  {
    BoundaryFrom(s, 0)
  }

  lemma {:induction false} SearchFindsFirst(s: seq<Byte>, i: nat)
    ensures match BoundaryFrom(s, i)
            case Some(k) => BlankLineAt(s, k) && forall j: nat | i <= j < k :: !BlankLineAt(s, j)
            case None => forall j: nat | i <= j :: !BlankLineAt(s, j)
    decreases |s| - i
  {
    if i + 1 < |s| && !(s[i] == LF && s[i + 1] == LF) { SearchFindsFirst(s, i + 1); }
  }

  /** The search finds the first LF LF, and nothing exactly when there is none. */
  lemma BoundaryIsFirst(s: seq<Byte>)
    ensures match Boundary(s)
            case Some(i) => BlankLineAt(s, i) && forall j: nat | j < i :: !BlankLineAt(s, j)
            case None => forall j: nat :: !BlankLineAt(s, j)
  {
    SearchFindsFirst(s, 0);
  }

  /** The one-shot split: after each first LF LF, with a non-empty tail as the last block. */
  function Split(s: seq<Byte>): seq<seq<Byte>>
    decreases |s|
  {
    match Boundary(s)
    case None => if s == [] then [] else [s]
    case Some(i) => [s[..i + 2]] + Split(s[i + 2..])
  }

  /** The blocks of `s` that are complete, whatever may follow. */
  function Complete(s: seq<Byte>): seq<seq<Byte>>
    decreases |s|
  {
    match Boundary(s)
    case None => []
    case Some(i) => [s[..i + 2]] + Complete(s[i + 2..])
  }

  function Flatten(blocks: seq<seq<Byte>>): seq<Byte> {
    if blocks == [] then [] else blocks[0] + Flatten(blocks[1..])
  }

  // ---- The relay ----

  /** What the relay yields: a block for the governor, or a failure that ends the stream. */
  datatype Item = Block(bytes: seq<Byte>) | Failure

  /** What the upstream yields: a chunk, or a transport error. */
  datatype Upstream = Chunk(bytes: seq<Byte>) | Broken

  /** Everything the relay will still yield from a given position. */
  function Output(pending: seq<Byte>, upstream: seq<Upstream>, total: nat, limit: nat): seq<Item>
    decreases |upstream|, |pending|
  {
    match Boundary(pending)
    case Some(i) => [Block(pending[..i + 2])] + Output(pending[i + 2..], upstream, total, limit)
    case None =>
      if upstream == [] then if pending == [] then [] else [Block(pending)]
      else if upstream[0].Broken? || total + |upstream[0].bytes| > limit then [Failure]
      else Output(pending + upstream[0].bytes, upstream[1..], total + |upstream[0].bytes|, limit)
  }

  class Reframer {
    const limit: nat
    var upstream: seq<Upstream>
    var pending: seq<Byte>
    var total: nat
    var done: bool

    constructor (upstream: seq<Upstream>, limit: nat)
      ensures this.limit == limit && this.upstream == upstream
      ensures pending == [] && total == 0 && !done
    {
      this.limit, this.upstream := limit, upstream;
      pending, total, done := [], 0, false;
    }

    function Remaining(): seq<Item>
      reads this
    {
      if done then [] else Output(pending, upstream, total, limit)
    }

    /** One poll of the relay: yields the first remaining item and leaves the others. */
    method Next() returns (item: Option<Item>)
      modifies this
      ensures item.None? <==> old(Remaining()) == []
      ensures item.Some? ==> old(Remaining()) == [item.value] + Remaining()
      ensures item.None? ==> Remaining() == []
      ensures |upstream| <= |old(upstream)|
    {
      if done {
        return None;
      }
      while true
        invariant !done
        invariant Remaining() == old(Remaining())
        invariant |upstream| <= |old(upstream)|
        decreases |upstream|
      {
        var boundary := Boundary(pending);
        if boundary.Some? {
          var event := pending[..boundary.value + 2];
          pending := pending[boundary.value + 2..];
          return Some(Block(event));
        }
        if upstream == [] {
          if pending == [] {
            return None;
          }
          var event := pending;
          pending := [];
          done := true;
          return Some(Block(event));
        }
        var head := upstream[0];
        upstream := upstream[1..];
        match head
        case Broken =>
          done := true;
          return Some(Failure);
        case Chunk(bytes) =>
          total := total + |bytes|;
          if total > limit {
            done := true;
            return Some(Failure);
          }
          pending := pending + bytes;
      }
    }

    /** Polling to the end yields exactly what remained. */
    method Drain() returns (items: seq<Item>)
      modifies this
      ensures items == old(Remaining()) && Remaining() == []
    {
      items := [];
      ghost var whole := Remaining();
      while true
        invariant whole == items + Remaining()
        decreases |Remaining()|
      {
        ghost var before := Remaining();
        var item := Next();
        if item.None? {
          return;
        }
        assert items + before == items + [item.value] + Remaining();
        items := items + [item.value];
      }
    }
  }

  // ---- The relay refines the split ----

  function Blocks(split: seq<seq<Byte>>): seq<Item> {
    if split == [] then [] else [Block(split[0])] + Blocks(split[1..])
  }

  lemma BlocksCons(b: seq<Byte>, rest: seq<seq<Byte>>)
    ensures Blocks([b] + rest) == [Block(b)] + Blocks(rest)
  {
    assert ([b] + rest)[1..] == rest;
  }

  lemma {:induction false} SearchStable(s: seq<Byte>, t: seq<Byte>, i: nat)
    requires BoundaryFrom(s, i).Some?
    ensures BoundaryFrom(s + t, i) == BoundaryFrom(s, i)
    decreases |s| - i
  {
    if !(s[i] == LF && s[i + 1] == LF) { SearchStable(s, t, i + 1); }
  }

  /** A boundary already seen stays where it is when more bytes arrive. */
  lemma BoundaryStable(s: seq<Byte>, t: seq<Byte>)
    requires Boundary(s).Some?
    ensures Boundary(s + t) == Boundary(s)
  {
    SearchStable(s, t, 0);
  }

  /** Peeling the first block off a longer stream. */
  lemma Peel(s: seq<Byte>, t: seq<Byte>)
    requires Boundary(s).Some?
    ensures var i := Boundary(s).value;
      && Split(s + t) == [s[..i + 2]] + Split(s[i + 2..] + t)
      && Complete(s + t) == [s[..i + 2]] + Complete(s[i + 2..] + t)
  {
    var i := Boundary(s).value;
    BoundaryStable(s, t);
    assert (s + t)[..i + 2] == s[..i + 2];
    assert (s + t)[i + 2..] == s[i + 2..] + t;
  }

  /** The relay ends with a failure at a transport error or at the chunk that passes the limit. */
  predicate Stops(upstream: Upstream, total: nat, limit: nat) {
    upstream.Broken? || total + |upstream.bytes| > limit
  }

  /** The bytes that arrive before that, and whether it never comes to that. */
  function Received(upstream: seq<Upstream>, total: nat, limit: nat): seq<Byte> {
    if upstream == [] || Stops(upstream[0], total, limit) then []
    else upstream[0].bytes + Received(upstream[1..], total + |upstream[0].bytes|, limit)
  }

  predicate Ends(upstream: seq<Upstream>, total: nat, limit: nat) {
    upstream == [] || (!Stops(upstream[0], total, limit) && Ends(upstream[1..], total + |upstream[0].bytes|, limit))
  }

  ghost predicate YieldsSplit(pending: seq<Byte>, upstream: seq<Upstream>, total: nat, limit: nat) {
    Output(pending, upstream, total, limit) == Blocks(Split(pending + Received(upstream, total, limit)))
  }

  lemma YieldBlock(items: seq<Item>, b: seq<Byte>, rest: seq<seq<Byte>>, end: seq<Item>)
    requires items == Blocks(rest) + end
    ensures [Block(b)] + items == Blocks([b] + rest) + end
  {
    BlocksCons(b, rest);
  }

  lemma SplitAfterBlock(pending: seq<Byte>, upstream: seq<Upstream>, total: nat, limit: nat)
    requires Boundary(pending).Some?
    requires YieldsSplit(pending[Boundary(pending).value + 2..], upstream, total, limit)
    ensures YieldsSplit(pending, upstream, total, limit)
  {
    var i, received := Boundary(pending).value, Received(upstream, total, limit);
    Peel(pending, received);
    YieldBlock(Output(pending[i + 2..], upstream, total, limit), pending[..i + 2], Split(pending[i + 2..] + received), []);
  }

  lemma SplitAfterChunk(pending: seq<Byte>, upstream: seq<Upstream>, total: nat, limit: nat)
    requires Boundary(pending).None? && upstream != [] && !Stops(upstream[0], total, limit)
    requires YieldsSplit(pending + upstream[0].bytes, upstream[1..], total + |upstream[0].bytes|, limit)
    ensures YieldsSplit(pending, upstream, total, limit)
  {
    ReceivedFirst(pending, upstream, total, limit);
  }

  lemma ReceivedFirst(pending: seq<Byte>, upstream: seq<Upstream>, total: nat, limit: nat)
    requires upstream != [] && !Stops(upstream[0], total, limit)
    ensures pending + Received(upstream, total, limit) ==
            (pending + upstream[0].bytes) + Received(upstream[1..], total + |upstream[0].bytes|, limit)
  {
  }

  lemma SplitAtEnd(pending: seq<Byte>, total: nat, limit: nat)
    requires Boundary(pending).None?
    ensures YieldsSplit(pending, [], total, limit)
  {
    assert pending + [] == pending;
    if pending != [] { BlocksCons(pending, []); }
  }

  /** A stream that comes to its end is handed over as its split, from any position on. */
  lemma {:induction false} RelaySplits(pending: seq<Byte>, upstream: seq<Upstream>, total: nat, limit: nat)
    requires Ends(upstream, total, limit)
    ensures YieldsSplit(pending, upstream, total, limit)
    decreases |upstream|, |pending|
  {
    match Boundary(pending)
    case Some(i) =>
      RelaySplits(pending[i + 2..], upstream, total, limit);
      SplitAfterBlock(pending, upstream, total, limit);
    case None =>
      if upstream == [] {
        SplitAtEnd(pending, total, limit);
      } else {
        RelaySplits(pending + upstream[0].bytes, upstream[1..], total + |upstream[0].bytes|, limit);
        SplitAfterChunk(pending, upstream, total, limit);
      }
  }

  ghost predicate YieldsComplete(pending: seq<Byte>, upstream: seq<Upstream>, total: nat, limit: nat) {
    Output(pending, upstream, total, limit) == Blocks(Complete(pending + Received(upstream, total, limit))) + [Failure]
  }

  lemma CompleteAfterBlock(pending: seq<Byte>, upstream: seq<Upstream>, total: nat, limit: nat)
    requires Boundary(pending).Some?
    requires YieldsComplete(pending[Boundary(pending).value + 2..], upstream, total, limit)
    ensures YieldsComplete(pending, upstream, total, limit)
  {
    var i, received := Boundary(pending).value, Received(upstream, total, limit);
    Peel(pending, received);
    YieldBlock(Output(pending[i + 2..], upstream, total, limit), pending[..i + 2], Complete(pending[i + 2..] + received),
               [Failure]);
  }

  lemma CompleteAfterChunk(pending: seq<Byte>, upstream: seq<Upstream>, total: nat, limit: nat)
    requires Boundary(pending).None? && upstream != [] && !Stops(upstream[0], total, limit)
    requires YieldsComplete(pending + upstream[0].bytes, upstream[1..], total + |upstream[0].bytes|, limit)
    ensures YieldsComplete(pending, upstream, total, limit)
  {
    ReceivedFirst(pending, upstream, total, limit);
  }

  lemma CompleteAtStop(pending: seq<Byte>, upstream: seq<Upstream>, total: nat, limit: nat)
    requires Boundary(pending).None? && upstream != [] && Stops(upstream[0], total, limit)
    ensures YieldsComplete(pending, upstream, total, limit)
  {
    assert pending + [] == pending;
  }

  /** A stream cut short is handed over as the complete blocks of what was received, then a failure. */
  lemma {:induction false} RelayCutsShort(pending: seq<Byte>, upstream: seq<Upstream>, total: nat, limit: nat)
    requires !Ends(upstream, total, limit)
    ensures YieldsComplete(pending, upstream, total, limit)
    decreases |upstream|, |pending|
  {
    match Boundary(pending)
    case Some(i) =>
      RelayCutsShort(pending[i + 2..], upstream, total, limit);
      CompleteAfterBlock(pending, upstream, total, limit);
    case None =>
      if Stops(upstream[0], total, limit) {
        CompleteAtStop(pending, upstream, total, limit);
      } else {
        RelayCutsShort(pending + upstream[0].bytes, upstream[1..], total + |upstream[0].bytes|, limit);
        CompleteAfterChunk(pending, upstream, total, limit);
      }
  }

  function Total(upstream: seq<Upstream>): nat {
    if upstream == [] then 0 else (if upstream[0].Chunk? then |upstream[0].bytes| else 0) + Total(upstream[1..])
  }

  function Joined(upstream: seq<Upstream>): seq<Byte> {
    if upstream == [] then [] else (if upstream[0].Chunk? then upstream[0].bytes else []) + Joined(upstream[1..])
  }

  predicate AllChunks(upstream: seq<Upstream>) {
    upstream == [] || (upstream[0].Chunk? && AllChunks(upstream[1..]))
  }

  /** A stream comes to its end exactly when it does not break and stays within the limit. */
  lemma {:induction false} WithinLimit(upstream: seq<Upstream>, total: nat, limit: nat)
    requires total <= limit
    ensures Ends(upstream, total, limit) <==> AllChunks(upstream) && total + Total(upstream) <= limit
    ensures Ends(upstream, total, limit) ==> Received(upstream, total, limit) == Joined(upstream)
    ensures Received(upstream, total, limit) <= Joined(upstream)
  {
    if upstream != [] && upstream[0].Chunk? && total + |upstream[0].bytes| <= limit {
      WithinLimit(upstream[1..], total + |upstream[0].bytes|, limit);
    }
  }

  /** Nothing handed over before a failure would have been cut differently by the whole stream. */
  lemma {:induction false} CompleteIsPrefix(s: seq<Byte>, t: seq<Byte>)
    ensures Complete(s) <= Split(s + t)
    decreases |s|
  {
    match Boundary(s)
    case None =>
    case Some(i) =>
      Peel(s, t);
      CompleteIsPrefix(s[i + 2..], t);
  }

  lemma {:induction false} CutIsPrefix(upstream: seq<Upstream>, limit: nat)
    ensures Complete(Received(upstream, 0, limit)) <= Split(Joined(upstream))
  {
    var received := Received(upstream, 0, limit);
    WithinLimit(upstream, 0, limit);
    var rest := Joined(upstream)[|received|..];
    assert received + rest == Joined(upstream);
    CompleteIsPrefix(received, rest);
  }

  /** Any stream at any limit: its whole split, or, exactly when it breaks or passes the limit, a prefix
      of the split of the whole stream and then a failure. */
  lemma RelayIsSplit(upstream: seq<Upstream>, limit: nat)
    ensures
      var blocks, split := Complete(Received(upstream, 0, limit)), Split(Joined(upstream));
      && blocks <= split
      && Output([], upstream, 0, limit) ==
           if AllChunks(upstream) && Total(upstream) <= limit then Blocks(split) else Blocks(blocks) + [Failure]
  {
    WithinLimit(upstream, 0, limit);
    CutIsPrefix(upstream, limit);
    assert [] + Received(upstream, 0, limit) == Received(upstream, 0, limit);
    if Ends(upstream, 0, limit) {
      RelaySplits([], upstream, 0, limit);
    } else {
      RelayCutsShort([], upstream, 0, limit);
    }
  }

  /** Two ways of cutting one stream into chunks within the limit are indistinguishable downstream. */
  lemma ChunkingDoesNotMatter(a: seq<Upstream>, b: seq<Upstream>, limit: nat)
    requires AllChunks(a) && AllChunks(b) && Joined(a) == Joined(b)
    requires Total(a) <= limit && Total(b) <= limit
    ensures Output([], a, 0, limit) == Output([], b, 0, limit)
  {
    RelayIsSplit(a, limit);
    RelayIsSplit(b, limit);
  }

  // ---- The split is the only one of its kind ----

  /** A block as the format has it: not empty, no LF LF before its end. */
  ghost predicate IsBlock(b: seq<Byte>, last: bool) {
    && b != []
    && (forall i: nat | i + 2 < |b| :: !BlankLineAt(b, i))
    && (!last ==> |b| >= 2 && BlankLineAt(b, |b| - 2))
  }

  ghost predicate IsSplit(blocks: seq<seq<Byte>>, s: seq<Byte>) {
    && Flatten(blocks) == s
    && forall i | 0 <= i < |blocks| :: IsBlock(blocks[i], i == |blocks| - 1)
  }

  lemma {:induction false} SplitIsSplit(s: seq<Byte>)
    ensures IsSplit(Split(s), s)
    decreases |s|
  {
    match Boundary(s)
    case None =>
      BoundaryIsFirst(s);
      if s != [] { assert Flatten([s]) == s + Flatten([]); }
    case Some(i) =>
      var head, rest := s[..i + 2], s[i + 2..];
      SplitIsSplit(rest);
      BoundaryIsFirst(s);
      var blocks := Split(s);
      assert blocks[1..] == Split(rest);
      assert s == head + rest;
      assert BlankLineAt(head, i);
      forall j: nat | j + 2 < |head| ensures !BlankLineAt(head, j) { assert BlankLineAt(head, j) ==> BlankLineAt(s, j); }
      forall k | 0 <= k < |blocks| ensures IsBlock(blocks[k], k == |blocks| - 1) {
        if k > 0 { assert blocks[k] == Split(rest)[k - 1]; }
      }
  }

  /** The first block of any such split ends at the first LF LF, if there is one. */
  lemma FirstBlock(blocks: seq<seq<Byte>>, s: seq<Byte>)
    requires IsSplit(blocks, s) && blocks != []
    ensures match Boundary(s)
            case Some(i) => blocks[0] == s[..i + 2]
            case None => blocks == [s]
  {
    var b, rest := blocks[0], Flatten(blocks[1..]);
    BoundaryIsFirst(s);
    assert s == b + rest;
    assert IsBlock(b, |blocks| == 1);
    assert forall i: nat | i + 1 < |b| :: BlankLineAt(s, i) <==> BlankLineAt(b, i);
    if |blocks| == 1 {
      assert blocks[1..] == [] && s == b;
    } else {
      assert BlankLineAt(b, |b| - 2) && BlankLineAt(s, |b| - 2);
      assert forall i: nat | i < |b| - 2 :: !BlankLineAt(s, i);
      assert Boundary(s) == Some(|b| - 2);
    }
  }

  /** Whatever cuts the stream into well-formed blocks without losing a byte is `Split`. */
  lemma {:induction false} SplitIsUnique(blocks: seq<seq<Byte>>, s: seq<Byte>)
    requires IsSplit(blocks, s)
    ensures blocks == Split(s)
    decreases |blocks|
  {
    if blocks == [] {
    } else {
      FirstBlock(blocks, s);
      match Boundary(s)
      case None =>
      case Some(i) =>
        var rest := blocks[1..];
        assert s[i + 2..] == Flatten(rest);
        forall k | 0 <= k < |rest| ensures IsBlock(rest[k], k == |rest| - 1) {
          assert IsBlock(blocks[k + 1], k + 1 == |blocks| - 1);
        }
        SplitIsUnique(rest, s[i + 2..]);
    }
  }
}
