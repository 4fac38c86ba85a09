/**
  Byte budgets while copying: one counter shared by many members, declared sizes checked before and
  during a copy, and the expansion guard of a compressed database dump.

  A source may return fewer bytes than asked for; a target may take fewer than it is given, or
  misbehave.  Sizes are integers of any sign, as declared metadata is.
 */
module ResourceBudget {
  import opened Octets
  import opened Wrappers

  datatype Reason =
    | MemberBytes               // the reason the caller chose for oversized members
    | TotalCopyBytes
    | DeclaredSizeMismatch
    | CompressedMemberBytes
    | UncompressedDatabaseBytes
    | CompressionRatio

  class CopyByteCounter {
    const maximumBytes: int
    var copied: int

    ghost predicate Valid()
      reads this
    {
      0 < maximumBytes && 0 <= copied <= maximumBytes
    }

    constructor (maximumBytes: int)
      requires maximumBytes > 0
      ensures Valid() && copied == 0 && this.maximumBytes == maximumBytes
    {
      this.maximumBytes, copied := maximumBytes, 0;
    }

    function Remaining(): int
      reads this
    {
      maximumBytes - copied
    }

    /** Never passes the maximum: an excess changes nothing. */
    method Consume(count: nat) returns (ok: bool)
      requires Valid()
      modifies this
      ensures Valid() && (ok <==> count <= old(Remaining()))
      ensures copied == old(copied) + if ok then count else 0
    {
      if count > maximumBytes - copied {
        return false;
      }
      copied := copied + count;
      return true;
    }
  }

  // ----- Preflight of declared sizes

  function Sum(sizes: seq<int>): int {
    if sizes == [] then 0 else Sum(sizes[..|sizes| - 1]) + sizes[|sizes| - 1]
  }

  /** Every size is a size, fits a member, and together they fit the total. */
  ghost predicate SizesFit(sizes: seq<int>, maximumMember: int, maximumTotal: int) {
    && (forall i :: 0 <= i < |sizes| ==> 0 <= sizes[i] <= maximumMember)
    && (sizes != [] ==> Sum(sizes) <= maximumTotal)
  }

  lemma {:induction false} SumOfPrefix(sizes: seq<int>, n: nat)
    requires n <= |sizes| && forall i :: 0 <= i < |sizes| ==> 0 <= sizes[i]
    ensures 0 <= Sum(sizes[..n]) <= Sum(sizes)
    decreases |sizes| - n
  {
    if n == |sizes| {
      assert sizes[..n] == sizes;
      SumNonNegative(sizes);
    } else {
      SumOfPrefix(sizes, n + 1);
      assert sizes[..n + 1][..n] == sizes[..n];
      SumNonNegative(sizes[..n]);
    }
  }

  lemma {:induction false} SumNonNegative(sizes: seq<int>)
    requires forall i :: 0 <= i < |sizes| ==> 0 <= sizes[i]
    ensures Sum(sizes) >= 0
  {
    if sizes != [] { SumNonNegative(sizes[..|sizes| - 1]); }
  }

  /** The running check accepts exactly the lists that fit, and returns their total. */
  method Preflight(sizes: seq<int>, maximumMember: int, maximumTotal: int) returns (r: Result<int, Reason>)
    ensures r.Ok? <==> SizesFit(sizes, maximumMember, maximumTotal)
    ensures r.Ok? ==> r.value == Sum(sizes)
    ensures r == Err(DeclaredSizeMismatch) ==> exists i :: 0 <= i < |sizes| && sizes[i] < 0
    ensures r == Err(MemberBytes) ==> exists i :: 0 <= i < |sizes| && sizes[i] > maximumMember
  {
    var total := 0;
    var n := 0;
    while n < |sizes|
      invariant 0 <= n <= |sizes|
      invariant total == Sum(sizes[..n])
      invariant forall i :: 0 <= i < n ==> 0 <= sizes[i] <= maximumMember
      invariant n > 0 ==> total <= maximumTotal
    {
      var size := sizes[n];
      assert sizes[..n + 1][..n] == sizes[..n];
      if size < 0 {
        return Err(DeclaredSizeMismatch);
      }
      if size > maximumMember {
        return Err(MemberBytes);
      }
      if size > maximumTotal - total {
        if SizesFit(sizes, maximumMember, maximumTotal) {
          SumOfPrefix(sizes, n + 1);
        }
        return Err(TotalCopyBytes);
      }
      total := total + size;
      n := n + 1;
    }
    assert sizes[..|sizes|] == sizes;
    return Ok(total);
  }

  // ----- Streams

  class Source {
    const data: Bytes
    var position: nat

    ghost predicate Valid()
      reads this
    {
      position <= |data|
    }

    constructor (data: Bytes)
      ensures Valid() && this.data == data && position == 0
    {
      this.data, position := data, 0;
    }

    /** A read may be short; it is empty only at the end. */
    method Read(n: int) returns (chunk: Bytes)
      requires Valid() && n > 0
      modifies this
      ensures Valid() && |chunk| <= n && position == old(position) + |chunk|
      ensures chunk == data[old(position)..position]
      ensures chunk == [] <==> old(position) == |data|
    {
      if position == |data| {
        return [];
      }
      var k: nat :| 1 <= k <= n && position + k <= |data|;
      chunk := data[position..position + k];
      position := position + k;
    }
  }

  /** A target answers with any integer; a reliable one takes a non-empty first part each time. */
  class Target {
    const reliable: bool
    var written: Bytes

    method Write(chunk: Bytes) returns (count: int)
      requires chunk != []
      modifies this
      ensures old(written) <= written <= old(written) + chunk
      ensures 0 < count <= |chunk| ==> written == old(written) + chunk[..count]
      ensures reliable ==> 0 < count <= |chunk|
    {
      if reliable {
        count :| 0 < count <= |chunk|;
      } else {
        count := *;
      }
      if 0 < count <= |chunk| {
        written := written + chunk[..count];
      }
    }
  }

  /** Writes until nothing is left, or a write makes no sense. */
  method WriteAll(target: Target, chunk: Bytes) returns (ok: bool)
    modifies target
    ensures old(target.written) <= target.written <= old(target.written) + chunk
    ensures ok ==> target.written == old(target.written) + chunk
    ensures target.reliable ==> ok
  {
    var remaining := chunk;
    ghost var before := target.written;
    ghost var done: Bytes := [];
    assert before + done == before;
    while remaining != []
      invariant chunk == done + remaining && target.written == before + done
      decreases |remaining|
    {
      ghost var was := remaining;
      var count := target.Write(remaining);
      if count <= 0 || count > |remaining| {
        assert target.written <= before + done + remaining == before + chunk;
        return false;
      }
      done := done + remaining[..count];
      assert was == was[..count] + was[count..];
      remaining := remaining[count..];
    }
    return true;
  }

  // ----- The bounded copy

  datatype Outcome =
    | Copied(count: nat)
    | LimitExceeded(reason: Reason)
    | BadChunkSize
    | WriteIncomplete

  function Min(a: int, b: int): int {
    if a < b then a else b
  }

  /** Content of a source that a copy must fit, with or without a declared size. */
  ghost predicate Fits(content: Bytes, expected: Option<int>, maximumMember: int, remaining: int) {
    if expected.None? then content == [] || (|content| <= maximumMember && |content| <= remaining)
    else expected.value == |content| && |content| <= maximumMember && |content| <= remaining
  }

  /** The size after a chunk is still allowed, and the chunk fits what the counter has left. */
  predicate ChunkFits(maximumMember: int, expected: Option<int>, remaining: int, copied: nat, chunk: Bytes) {
    && (expected.Some? ==> copied + |chunk| <= expected.value)
    && copied + |chunk| <= maximumMember && |chunk| <= remaining
  }

  /** Counts one chunk and writes it, or says why the copy ends. */
  method CopyChunk(
    target: Target, counter: CopyByteCounter, maximumMember: int, expected: Option<int>, copied: nat, chunk: Bytes)
    returns (ended: Option<Outcome>)
    requires counter.Valid()
    modifies target, counter
    ensures counter.Valid()
    ensures ended.None? ==>
      && ChunkFits(maximumMember, expected, old(counter.Remaining()), copied, chunk)
      && counter.copied == old(counter.copied) + |chunk| && target.written == old(target.written) + chunk
    ensures ended.Some? ==> ended.value.LimitExceeded? || ended.value == WriteIncomplete
    ensures ended.Some? && ended.value.LimitExceeded? ==>
      && !ChunkFits(maximumMember, expected, old(counter.Remaining()), copied, chunk)
      && counter.copied == old(counter.copied) && target.written == old(target.written)
    ensures ended == Some(WriteIncomplete) ==>
      && !target.reliable && counter.copied == old(counter.copied) + |chunk|
      && old(target.written) <= target.written <= old(target.written) + chunk
  {
    if expected.Some? && copied + |chunk| > expected.value {
      return Some(LimitExceeded(DeclaredSizeMismatch));
    }
    if copied + |chunk| > maximumMember {
      return Some(LimitExceeded(MemberBytes));
    }
    var consumed := counter.Consume(|chunk|);
    if !consumed {
      return Some(LimitExceeded(TotalCopyBytes));
    }
    var complete := WriteAll(target, chunk);
    return if complete then None else Some(WriteIncomplete);
  }

  lemma PrefixGrows(data: Bytes, before: Bytes, was: nat, chunk: Bytes)
    requires was + |chunk| <= |data| && chunk == data[was..was + |chunk|]
    ensures before + data[..was] + chunk == before + data[..was + |chunk|]
  {
    assert data[..was] + chunk == data[..was + |chunk|];
  }

  /**
    Copies one stream.  What reaches the target is always a first part of the source, and on
    success and on every limit it is exactly as long as the counter's increase.
   */
  method BoundedCopy(source: Source, target: Target, counter: CopyByteCounter,
                     maximumMember: int, expected: Option<int>, chunkBytes: int)
    returns (outcome: Outcome)
    requires source.Valid() && source.position == 0 && counter.Valid()
    modifies source, target, counter
    ensures counter.Valid()
    ensures target.reliable && chunkBytes > 0 ==>
      (outcome.Copied? <==> Fits(source.data, expected, maximumMember, old(counter.Remaining())))
    ensures outcome.Copied? ==> Fits(source.data, expected, maximumMember, old(counter.Remaining()))
    ensures outcome.Copied? ==> outcome.count == |source.data|
    ensures outcome.Copied? ==> target.written == old(target.written) + source.data
    ensures 0 <= counter.copied - old(counter.copied) <= |source.data|
    ensures outcome != WriteIncomplete ==>
      target.written == old(target.written) + source.data[..counter.copied - old(counter.copied)]
    ensures old(target.written) <= target.written
      <= old(target.written) + source.data[..counter.copied - old(counter.copied)]
    ensures target.reliable ==> outcome != WriteIncomplete
    ensures outcome == BadChunkSize ==> chunkBytes <= 0
  {
    assert source.data[..0] == [] && target.written + [] == target.written;
    if expected.Some? {
      var checked := Preflight([expected.value], maximumMember, counter.maximumBytes - counter.copied);
      assert Sum([expected.value]) == expected.value by { assert [expected.value][..0] == []; }
      if checked.Err? {
        assert [expected.value][0] == expected.value;
        return LimitExceeded(checked.error);
      }
      assert [expected.value][0] == expected.value;
    }
    if chunkBytes <= 0 {
      return BadChunkSize;
    }
    var copied: nat := 0;
    ghost var before, copiedBefore := target.written, counter.copied;
    while true
      invariant source.Valid() && source.position == copied && counter.Valid()
      invariant (copied <= maximumMember || (copied == 0 && expected.None?)) && (expected.Some? ==> copied <= expected.value)
      invariant counter.copied == copiedBefore + copied
      invariant target.written == before + source.data[..copied]
      decreases |source.data| - source.position
    {
      var readSize := chunkBytes;
      if expected.Some? {
        readSize := Min(readSize, (if expected.value - copied > 0 then expected.value - copied else 0) + 1);
      }
      var chunk := source.Read(readSize);
      if chunk == [] {
        break;
      }
      var ended := CopyChunk(target, counter, maximumMember, expected, copied, chunk);
      PrefixGrows(source.data, before, copied, chunk);
      if ended.Some? {
        return ended.value;
      }
      copied := copied + |chunk|;
    }
    assert source.data[..|source.data|] == source.data;
    if expected.Some? && copied != expected.value {
      return LimitExceeded(DeclaredSizeMismatch);
    }
    return Copied(copied);
  }

  const COPY_CHUNK_BYTES := 1024 * 1024

  function Sizes(sources: seq<Source>): (r: seq<int>)
    ensures |r| == |sources|
    ensures forall i :: 0 <= i < |sources| ==> r[i] == |sources[i].data|
  {
    seq(|sources|, i requires 0 <= i < |sources| => |sources[i].data|)
  }

  /**
    The payload copy of a backup: declared sizes first, then one bounded copy each.  When the sizes
    pass, and the sources keep them, every copy succeeds and together they add exactly the total.
   */
  method CopyPayload(sources: seq<Source>, targets: seq<Target>, counter: CopyByteCounter,
                     sizes: seq<int>, maximumMember: int)
    returns (r: Result<int, Reason>)
    requires |sources| == |targets| == |sizes| && counter.Valid()
    requires forall i, j :: 0 <= i < j < |sources| ==> sources[i] != sources[j]
    requires forall i, j :: 0 <= i < j < |targets| ==> targets[i] != targets[j]
    requires forall i :: 0 <= i < |sources| ==> sources[i].Valid() && sources[i].position == 0
    requires forall i :: 0 <= i < |targets| ==> targets[i].reliable
    modifies sources, targets, counter
    ensures counter.Valid()
    ensures !SizesFit(sizes, maximumMember, old(counter.Remaining())) ==>
      r.Err? && counter.copied == old(counter.copied)
    ensures SizesFit(sizes, maximumMember, old(counter.Remaining())) && sizes == Sizes(sources) ==>
      && r == Ok(Sum(sizes)) && counter.copied == old(counter.copied) + Sum(sizes)
      && forall i :: 0 <= i < |sources| ==> targets[i].written == old(targets[i].written) + sources[i].data
    ensures SizesFit(sizes, maximumMember, old(counter.Remaining())) && sizes != Sizes(sources) ==> r.Err?
  {
    r := Preflight(sizes, maximumMember, counter.maximumBytes - counter.copied);
    if r.Ok? {
      r := CopyInOrder(sources, targets, counter, sizes, maximumMember);
    }
  }

  lemma NextFits(sizes: seq<int>, maximumMember: int, maximumTotal: int, n: nat)
    requires SizesFit(sizes, maximumMember, maximumTotal) && n < |sizes|
    ensures 0 <= sizes[n] <= maximumMember
    ensures Sum(sizes[..n + 1]) == Sum(sizes[..n]) + sizes[n] <= maximumTotal
  {
    SumOfPrefix(sizes, n + 1);
    assert sizes[..n + 1][..n] == sizes[..n];
  }

  /** A copy of a size that has passed succeeds exactly when the source has that size. */
  method CopyOne(source: Source, target: Target, counter: CopyByteCounter, size: int, maximumMember: int)
    returns (r: Result<int, Reason>)
    requires source.Valid() && source.position == 0 && counter.Valid() && target.reliable
    requires 0 <= size <= maximumMember && size <= counter.Remaining()
    modifies source, target, counter
    ensures counter.Valid()
    ensures r.Ok? <==> size == |source.data|
    ensures r.Ok? ==> counter.copied == old(counter.copied) + size && target.written == old(target.written) + source.data
  {
    var outcome := BoundedCopy(source, target, counter, maximumMember, Some(size), COPY_CHUNK_BYTES);
    if !outcome.Copied? {
      return Err(if outcome.LimitExceeded? then outcome.reason else DeclaredSizeMismatch);
    }
    assert source.data[..|source.data|] == source.data;
    return Ok(outcome.count);
  }

  /** Copies of sizes that have passed: all succeed unless some source has another size than declared. */
  method CopyInOrder(sources: seq<Source>, targets: seq<Target>, counter: CopyByteCounter,
                     sizes: seq<int>, maximumMember: int)
    returns (r: Result<int, Reason>)
    requires |sources| == |targets| == |sizes| && counter.Valid()
    requires forall i, j :: 0 <= i < j < |sources| ==> sources[i] != sources[j]
    requires forall i, j :: 0 <= i < j < |targets| ==> targets[i] != targets[j]
    requires forall i :: 0 <= i < |sources| ==> sources[i].Valid() && sources[i].position == 0
    requires forall i :: 0 <= i < |targets| ==> targets[i].reliable
    requires SizesFit(sizes, maximumMember, counter.Remaining())
    modifies sources, targets, counter
    ensures counter.Valid()
    ensures r.Ok? <==> sizes == Sizes(sources)
    ensures r.Ok? ==> r.value == Sum(sizes) && counter.copied == old(counter.copied) + Sum(sizes)
    ensures r.Ok? ==>
      forall i :: 0 <= i < |sources| ==> targets[i].written == old(targets[i].written) + sources[i].data
  {
    ghost var start, remaining := counter.copied, counter.Remaining();
    var n := 0;
    while n < |sources|
      invariant 0 <= n <= |sources| && counter.Valid()
      invariant forall i :: n <= i < |sources| ==> sources[i].Valid() && sources[i].position == 0
      invariant forall i :: n <= i < |targets| ==> targets[i].written == old(targets[i].written)
      invariant forall i :: 0 <= i < n ==> sizes[i] == |sources[i].data|
      invariant forall i :: 0 <= i < n ==> targets[i].written == old(targets[i].written) + sources[i].data
      invariant counter.copied == start + Sum(sizes[..n]) && counter.Remaining() == remaining - Sum(sizes[..n])
    {
      NextFits(sizes, maximumMember, remaining, n);
      var one := CopyOne(sources[n], targets[n], counter, sizes[n], maximumMember);
      if one.Err? {
        assert sizes[n] != Sizes(sources)[n];
        return one;
      }
      n := n + 1;
    }
    assert sizes[..|sizes|] == sizes;
    return Ok(Sum(sizes));
  }

  // ----- Expansion of a compressed dump

  datatype Budget = Budget(maximumCompressedMember: int, maximumUncompressedDatabase: int, maximumRatio: int) {
    ghost predicate Valid() {
      maximumCompressedMember > 0 && maximumUncompressedDatabase > 0 && maximumRatio > 0
    }

    /** The most a dump of this compressed size may expand to. */
    function Allowance(compressed: int): int {
      Min(maximumUncompressedDatabase, compressed * maximumRatio)
    }
  }

  class DatabaseExpansionGuard {
    const compressedBytes: int
    const budget: Budget
    var uncompressedBytes: int

    constructor (compressedBytes: int, budget: Budget)
      ensures this.compressedBytes == compressedBytes && this.budget == budget && uncompressedBytes == 0
    {
      this.compressedBytes, this.budget, uncompressedBytes := compressedBytes, budget, 0;
    }

    /** Counts first, then checks; after an accepted chunk the total is within the allowance. */
    method Consume(count: nat) returns (r: Result<(), Reason>)
      modifies this
      ensures uncompressedBytes == old(uncompressedBytes) + count
      ensures r.Ok? <==> uncompressedBytes <= budget.Allowance(compressedBytes)
      ensures r == Err(UncompressedDatabaseBytes) <==> uncompressedBytes > budget.maximumUncompressedDatabase
    {
      uncompressedBytes := uncompressedBytes + count;
      if uncompressedBytes > budget.maximumUncompressedDatabase {
        return Err(UncompressedDatabaseBytes);
      }
      if uncompressedBytes > compressedBytes * budget.maximumRatio {
        return Err(CompressionRatio);
      }
      return Ok(());
    }
  }

  /** The size check of the guard's constructor. */
  predicate CompressedSizeAllowed(compressed: int, budget: Budget) {
    0 < compressed <= budget.maximumCompressedMember
  }

  /** The producer: one check of the whole dump, which it knows from the file's size. */
  method CheckWhole(compressed: int, total: nat, budget: Budget) returns (ok: bool)
    ensures ok <==>
      && 0 < compressed <= budget.maximumCompressedMember
      && total <= budget.maximumUncompressedDatabase && total <= compressed * budget.maximumRatio
  {
    if !CompressedSizeAllowed(compressed, budget) {
      return false;
    }
    var guard := new DatabaseExpansionGuard(compressed, budget);
    var r := guard.Consume(total);
    return r.Ok?;
  }

  /**
    The verifier and the importer: one check for each chunk the decompressor hands out.  Whatever
    the chunks are, it accepts exactly the dumps the producer's check accepts.
   */
  method CheckChunked(compressed: int, chunks: seq<Bytes>, budget: Budget) returns (ok: bool, total: nat)
    requires budget.Valid()
    ensures ok <==>
      && 0 < compressed <= budget.maximumCompressedMember
      && |Concat(chunks)| <= budget.maximumUncompressedDatabase
      && |Concat(chunks)| <= compressed * budget.maximumRatio
    ensures ok ==> total == |Concat(chunks)|
  {
    total := 0;
    if !CompressedSizeAllowed(compressed, budget) {
      return false, 0;
    }
    var guard := new DatabaseExpansionGuard(compressed, budget);
    AllowancePositive(compressed, budget);
    var n := 0;
    while n < |chunks|
      invariant 0 <= n <= |chunks|
      invariant guard.uncompressedBytes == |Concat(chunks[..n])|
      invariant guard.uncompressedBytes <= budget.Allowance(compressed)
    {
      assert chunks[..n + 1][..n] == chunks[..n];
      ConcatGrows(chunks, n + 1);
      var r := guard.Consume(|chunks[n]|);
      if r.Err? {
        return false, 0;
      }
      n := n + 1;
    }
    assert chunks[..|chunks|] == chunks;
    return true, guard.uncompressedBytes;
  }

  function Concat(chunks: seq<Bytes>): Bytes {
    if chunks == [] then [] else Concat(chunks[..|chunks| - 1]) + chunks[|chunks| - 1]
  }

  lemma {:induction false} ConcatGrows(chunks: seq<Bytes>, n: nat)
    requires n <= |chunks|
    ensures |Concat(chunks[..n])| <= |Concat(chunks)|
    decreases |chunks| - n
  {
    if n == |chunks| {
      assert chunks[..n] == chunks;
    } else {
      ConcatGrows(chunks, n + 1);
      assert chunks[..n + 1][..n] == chunks[..n];
    }
  }

  lemma AllowancePositive(compressed: int, budget: Budget)
    requires compressed > 0 && budget.Valid()
    ensures budget.Allowance(compressed) > 0
  {
    assert compressed * budget.maximumRatio > 0;
  }
}
