/**
  The bounded copy of one ZIP member: reading compressed bytes, inflating them chunk by chunk, and
  writing what comes out, under the declared size, the member limit and the shared total.

  The file, the decompressor and the output stream are oracles: each returns any answer its
  contract allows.  The decompressor may keep output back, return nothing, or leave input unused.
 */
module MemberCopy {
  import opened ArchiveLimits
  import opened Octets

  type Word = x: int | 0 <= x < 0x1_0000_0000

  // ----- CRC-32 as the incremental library call computes it

  /** One byte of the table-driven update; the polynomial table is a parameter. */
  type Step = (Word, byte) -> Word

  /** c ^ 0xFFFFFFFF */
  function Inverted(c: Word): Word {
    0xFFFF_FFFF - c
  }

  function CrcUpdate(step: Step, c: Word, data: Bytes): Word
    decreases |data|
  {
    if data == [] then c else CrcUpdate(step, step(c, data[0]), data[1..])
  }

  /** crc32(data, value): the register is inverted on the way in and on the way out. */
  function Crc32(step: Step, data: Bytes, value: Word): Word {
    Inverted(CrcUpdate(step, Inverted(value), data))
  }

  lemma {:induction false} CrcUpdateConcat(step: Step, c: Word, a: Bytes, b: Bytes)
    ensures CrcUpdate(step, c, a + b) == CrcUpdate(step, CrcUpdate(step, c, a), b)
    decreases |a|
  {
    if a == [] {
      assert a + b == b;
    } else {
      assert (a + b)[1..] == a[1..] + b;
      CrcUpdateConcat(step, step(c, a[0]), a[1..], b);
    }
  }

  /** The checksum of a whole stream does not depend on how it was cut. */
  lemma CrcIncremental(step: Step, a: Bytes, b: Bytes, value: Word)
    ensures Crc32(step, b, Crc32(step, a, value)) == Crc32(step, a + b, value)
  {
    CrcUpdateConcat(step, Inverted(value), a, b);
  }

  /** Nothing leaves a checksum as it is, and a stream starts with all bits of the register set. */
  lemma CrcStarts(step: Step, b: byte, value: Word)
    ensures Crc32(step, [], value) == value
    ensures Crc32(step, [b], 0) == 0xFFFF_FFFF - step(0xFFFF_FFFF, b)
  {
    var full: Word := 0xFFFF_FFFF;
    assert [b][1..] == [] && [b][0] == b;
    assert CrcUpdate(step, full, [b]) == CrcUpdate(step, step(full, b), []);
  }

  // ----- Oracles

  /** A file positioned at the member's data.  Reads may be short, and are empty only at the end. */
  class Source {
    const data: Bytes
    var position: nat

    ghost predicate Valid()
      reads this
    {
      position <= |data|
    }

    constructor (data: Bytes)
      ensures Valid() && this.data == data && position == 0
    {
      this.data, position := data, 0;
    }

    method Read(n: nat) returns (chunk: Bytes)
      requires Valid() && n > 0
      modifies this
      ensures Valid() && position == old(position) + |chunk| && |chunk| <= n
      ensures chunk == data[old(position)..position]
      ensures chunk == [] <==> old(position) == |data|
    {
      if position == |data| {
        return [];
      }
      var most := if n < |data| - position then n else |data| - position;
      var k: nat :| 1 <= k <= most;
      chunk := data[position..position + k];
      position := position + k;
    }
  }

  /** An output stream.  A write reports what it took, which may be less than it was given. */
  class Sink {
    const faithful: bool
    var written: Bytes

    constructor (faithful: bool)
      ensures this.faithful == faithful && written == []
    {
      this.faithful, written := faithful, [];
    }

    method Write(chunk: Bytes) returns (n: nat)
      modifies this
      ensures n <= |chunk| && written == old(written) + chunk[..n]
      ensures faithful ==> n == |chunk|
    {
      if faithful {
        n := |chunk|;
      } else {
        n :| 0 <= n <= |chunk|;
      }
      written := written + chunk[..n];
    }
  }

  datatype Stream = Incomplete | Complete(output: Bytes)

  /** A complete stream tells where it ends: nothing longer or shorter is complete. */
  ghost predicate PrefixFree(inflate: Bytes -> Stream) {
    forall a, b :: inflate(a).Complete? && inflate(a + b).Complete? ==> b == []
  }

  /**
    What a decompressor does with output that exceeds the limit of a call: a patient one leaves input
    for later, so that it is called again; a hoarding one takes all input, says nothing before the
    stream has ended, and holds back what is over the limit; any other does either as it likes.
   */
  datatype Habit = Patient | Hoarding | Other

  /** A raw-deflate decompressor for the format that `inflate` defines. */
  class Decompressor {
    const inflate: Bytes -> Stream
    const habit: Habit
    var consumed: Bytes
    var produced: Bytes
    var unconsumedTail: Bytes
    var unusedData: Bytes
    var eof: bool
    ghost var stalled: bool   // all input is taken, none is to come, and the end was not reported

    constructor (inflate: Bytes -> Stream, habit: Habit)
      ensures this.inflate == inflate && this.habit == habit && Fresh() && unconsumedTail == [] && unusedData == []
    {
      this.inflate, this.habit := inflate, habit;
      consumed, produced, unconsumedTail, unusedData, eof, stalled := [], [], [], [], false, false;
    }

    ghost predicate Fresh()
      reads this
    {
      consumed == [] && produced == [] && !eof && !stalled
    }

    /** With `rest` still to come the input is part of a complete stream, and what came out so far starts its output. */
    ghost predicate OnTrack(input: Bytes, rest: Bytes)
      reads this
    {
      && PrefixFree(inflate) && inflate(consumed + input + rest).Complete?
      && produced <= inflate(consumed + input + rest).output
    }

    /**
      What a call on track does, when the whole stream has this output and `before` bytes of it had come
      out: what comes out continues the output, the end comes with the last input, and a call that does
      not end the stream makes progress.
     */
    ghost predicate Conforms(
      output: Bytes, before: nat, input: Bytes, limit: nat, rest: Bytes, chunk: Bytes)
      reads this
    {
      && produced <= output && unusedData == []
      && (eof ==> unconsumedTail == [] && rest == [])
      && (eof || chunk != [] || |unconsumedTail| < |input|)
      && (habit == Patient ==> !stalled)
      && (habit == Hoarding ==>
            unconsumedTail == [] && if rest != [] then chunk == [] else (eof <==> |output| - before <= limit))
    }

    /**
      At most `limit` bytes come out.  The input is consumed, found to follow the end of the stream,
      or left for later, in that order and without loss.  The end is reported only when the input
      consumed so far is a complete stream of everything produced so far.
     */
    method Decompress(input: Bytes, limit: nat, ghost rest: Bytes) returns (chunk: Bytes)
      requires limit >= 1 && !eof && input != []
      modifies this
      ensures |chunk| <= limit && produced == old(produced) + chunk
      ensures |unconsumedTail| + |unusedData| <= |input|
      ensures consumed + unusedData + unconsumedTail == old(consumed) + input
      ensures eof ==> inflate(consumed) == Complete(produced)
      ensures stalled <==> !eof && unconsumedTail == [] && rest == []
      ensures old(OnTrack(input, rest)) ==>
        Conforms(inflate(old(consumed) + input + rest).output, |old(produced)|, input, limit, rest, chunk)
    {
      var k := FindEnd(input);
      if k > |input| {
        NoEnd(input, rest);
        chunk, unconsumedTail, unusedData, consumed := [], [], [], consumed + input;
        stalled := rest == [];
      } else {
        EndsThere(input, k, rest);
        chunk := HandOut(input, k, limit);
        stalled := !eof && unconsumedTail == [] && rest == [];
      }
    }

    /** The first place in the input where the stream ends, or a place beyond it. */
    method FindEnd(input: Bytes) returns (k: nat)
      ensures if k <= |input| then Ends(input, k) else forall i :: 0 <= i <= |input| ==> !Ends(input, i)
    {
      k := 0;
      while k <= |input| && !Ends(input, k)
        invariant 0 <= k <= |input| + 1
        invariant forall i :: 0 <= i < k ==> !Ends(input, i)
      {
        k := k + 1;
      }
    }

    /** The end is in sight: the output up to the limit, and all input, some of it, or none, as the habit has it. */
    method HandOut(input: Bytes, k: nat, limit: nat) returns (chunk: Bytes)
      requires !eof && k <= |input| && Ends(input, k)
      modifies this`consumed, this`produced, this`unconsumedTail, this`unusedData, this`eof
      ensures var left := inflate(old(consumed) + input[..k]).output[|old(produced)|..];
        && produced == old(produced) + chunk && chunk == (if |left| <= limit then left else left[..limit])
        && (eof <==> |left| <= limit)
        && consumed + unusedData + unconsumedTail == old(consumed) + input
        && unusedData == (if eof then input[k..] else [])
        && (eof ==> consumed == old(consumed) + input[..k] && unconsumedTail == [])
        && (!eof ==> unconsumedTail == [] || unconsumedTail == input)
        && (!eof && habit == Patient ==> unconsumedTail == input)
        && (!eof && habit == Hoarding ==> unconsumedTail == [])
    {
      var left := inflate(consumed + input[..k]).output[|produced|..];
      var hold: bool := *;
      chunk, unusedData := if |left| > limit then left[..limit] else left, [];
      if |left| <= limit {
        unconsumedTail, unusedData, consumed, eof := [], input[k..], consumed + input[..k], true;
      } else if habit == Hoarding || (habit == Other && hold) {
        unconsumedTail, consumed := [], consumed + input;
      } else {
        unconsumedTail := input;
      }
      produced := produced + chunk;
    }

    /** On track, a stream whose end is not in sight has more to come. */
    lemma NoEnd(input: Bytes, rest: Bytes)
      requires !Ends(input, |input|)
      ensures OnTrack(input, rest) ==> rest != []
    {
      if rest == [] { assert input[..|input|] == input && consumed + input + rest == consumed + input; }
    }

    /** The stream ends after `k` bytes of the input, and its output continues what came out so far. */
    predicate Ends(input: Bytes, k: nat)
      requires k <= |input|
      reads this
    {
      inflate(consumed + input[..k]).Complete? && produced <= inflate(consumed + input[..k]).output
    }

    lemma EndsThere(input: Bytes, k: nat, rest: Bytes)
      requires k <= |input| && Ends(input, k)
      ensures OnTrack(input, rest) ==> k == |input| && rest == [] && consumed + input + rest == consumed + input[..k]
    {
      if OnTrack(input, rest) {
        assert consumed + input + rest == consumed + input[..k] + (input[k..] + rest);
      }
    }
  }

  // ----- The copy

  datatype Member = Member(deflated: bool, compressSize: nat, fileSize: nat, crc: Word)

  function Min(a: int, b: int): int {
    if a < b then a else b
  }

  /**
    How much one call may inflate: one byte beyond each remaining allowance, so that excess shows,
    and never 0, which the library would read as unlimited.
   */
  function OutputLimit(limits: Limits, m: Member, memberBytes: nat, streamedBytes: nat): (r: nat)
    requires limits.Valid() && memberBytes <= m.fileSize
    ensures 1 <= r <= limits.chunkBytes
    ensures r <= m.fileSize - memberBytes + 1
    ensures streamedBytes <= limits.maxTotalBytes ==> streamedBytes + r <= limits.maxTotalBytes + 1
    ensures memberBytes <= limits.maxMemberBytes ==> memberBytes + r <= limits.maxMemberBytes + 1
  {
    var least := Min(Min(limits.chunkBytes, m.fileSize - memberBytes + 1),
                     Min(limits.maxMemberBytes - memberBytes + 1, limits.maxTotalBytes - streamedBytes + 1));
    if least < 1 then 1 else least
  }

  datatype Turn = Continue | Accept | Reject

  class MemberCopier {
    const limits: Limits
    const step: Step
    var streamedBytes: nat
    var memberBytes: nat
    var checksum: Word
    ghost var emitted: Bytes

    constructor (limits: Limits, step: Step, streamedBytes: nat)
      ensures this.limits == limits && this.step == step && this.streamedBytes == streamedBytes
    {
      this.limits, this.step, this.streamedBytes := limits, step, streamedBytes;
      memberBytes, checksum, emitted := 0, 0, [];
    }

    /** The emitted chunks so far, their count, their checksum, and where they went. */
    ghost predicate InStep(m: Member, output: Sink, writtenBefore: Bytes, streamedBefore: nat)
      reads this, output
    {
      && memberBytes == |emitted|
      && streamedBytes == streamedBefore + |emitted|
      && checksum == Crc32(step, emitted, 0)
      && output.written == writtenBefore + emitted
      && |emitted| <= m.fileSize && |emitted| <= limits.maxMemberBytes
      && (emitted == [] || streamedBytes <= limits.maxTotalBytes)
    }

    /** Counts a chunk first, and writes it only when every allowance still holds. */
    method Emit(m: Member, chunk: Bytes, output: Sink, ghost writtenBefore: Bytes, ghost streamedBefore: nat)
      returns (ok: bool)
      requires InStep(m, output, writtenBefore, streamedBefore)
      modifies this, output
      ensures ok ==> InStep(m, output, writtenBefore, streamedBefore) && emitted == old(emitted) + chunk
      ensures output.faithful ==> (ok <==>
        chunk == [] || (&& |old(emitted)| + |chunk| <= m.fileSize && |old(emitted)| + |chunk| <= limits.maxMemberBytes
                        && old(streamedBytes) + |chunk| <= limits.maxTotalBytes))
      ensures Bounded(limits, m, writtenBefore, output.written, streamedBefore)
      ensures !ok ==> chunk != []
    {
      if chunk == [] {
        return true;
      }
      memberBytes := memberBytes + |chunk|;
      streamedBytes := streamedBytes + |chunk|;
      if memberBytes > m.fileSize || memberBytes > limits.maxMemberBytes || streamedBytes > limits.maxTotalBytes {
        return false;
      }
      CrcIncremental(step, emitted, chunk, 0);
      checksum := Crc32(step, chunk, checksum);
      emitted := emitted + chunk;
      var n := output.Write(chunk);
      if n != |chunk| {
        return false;
      }
      return true;
    }

    /** A stored member is copied as it is. */
    method CopyStored(m: Member, source: Source, output: Sink, ghost writtenBefore: Bytes, ghost streamedBefore: nat)
      returns (ok: bool)
      requires limits.Valid() && source.Valid() && InStep(m, output, writtenBefore, streamedBefore)
      requires emitted == []
      modifies this, source, output
      ensures Bounded(limits, m, writtenBefore, output.written, streamedBefore)
      ensures ok ==> InStep(m, output, writtenBefore, streamedBefore)
      ensures ok ==> source.Valid() && source.position == old(source.position) + m.compressSize
      ensures ok ==> emitted == source.data[old(source.position)..source.position]
      ensures ok ==> m.compressSize == m.fileSize
      ensures output.faithful ==> (ok <==>
        && m.compressSize == m.fileSize && m.fileSize <= |source.data| - old(source.position)
        && m.fileSize <= limits.maxMemberBytes
        && (m.fileSize == 0 || streamedBefore + m.fileSize <= limits.maxTotalBytes))
    {
      if m.compressSize != m.fileSize {
        return false;
      }
      var compressedRemaining: nat := m.compressSize;
      ghost var start := source.position;
      while compressedRemaining != 0
        invariant source.Valid() && InStep(m, output, writtenBefore, streamedBefore)
        invariant compressedRemaining + |emitted| == m.compressSize
        invariant source.position == start + |emitted| && emitted == source.data[start..source.position]
        decreases compressedRemaining
      {
        var chunk := source.Read(Min(limits.chunkBytes, compressedRemaining));
        if chunk == [] {
          return false;
        }
        compressedRemaining := compressedRemaining - |chunk|;
        ReadOn(source.data, start, source.position - |chunk|, source.position, emitted, chunk);
        var emittedAll := Emit(m, chunk, output, writtenBefore, streamedBefore);
        if !emittedAll {
          return false;
        }
      }
      return true;
    }

    /**
      A deflated member is inflated; the input taken is exactly its compressed bytes.  With an output that
      takes everything, it is accepted exactly when those bytes are there, are a complete stream, inflate
      to something within every allowance, and the decompressor has not stalled.  A patient one never
      stalls; a hoarding one does exactly when the content does not fit into one chunk.
     */
    method CopyDeflated(
      m: Member, source: Source, inflater: Decompressor, output: Sink,
      ghost writtenBefore: Bytes, ghost streamedBefore: nat)
      returns (ok: bool)
      requires limits.Valid() && source.Valid() && InStep(m, output, writtenBefore, streamedBefore)
      requires emitted == [] && inflater.Fresh() && PrefixFree(inflater.inflate)
      modifies this, source, inflater, output
      ensures Bounded(limits, m, writtenBefore, output.written, streamedBefore)
      ensures ok ==> InStep(m, output, writtenBefore, streamedBefore)
      ensures ok ==> source.Valid() && source.position == old(source.position) + m.compressSize
      ensures ok ==> inflater.inflate(source.data[old(source.position)..source.position]) == Complete(emitted)
      ensures output.faithful ==>
        (ok <==>
           Inflates(limits, m, inflater.inflate, source.data, old(source.position), streamedBefore) && !inflater.stalled)
      ensures output.faithful && Inflates(limits, m, inflater.inflate, source.data, old(source.position), streamedBefore) ==>
        && (inflater.habit == Patient ==> ok)
        && (inflater.habit == Hoarding ==>
              (ok <==> FitsChunk(limits, m, inflater.inflate, source.data, old(source.position))))
    {
      var compressedRemaining: nat := m.compressSize;
      var pending: Bytes := [];
      ghost var start := source.position;
      ghost var wanted := output.faithful
        && Inflates(limits, m, inflater.inflate, source.data, start, streamedBefore);
      while compressedRemaining != 0 || pending != []
        invariant source.Valid() && InStep(m, output, writtenBefore, streamedBefore)
        invariant compressedRemaining <= m.compressSize
        invariant source.position == start + (m.compressSize - compressedRemaining)
        invariant !inflater.eof && inflater.produced == emitted
        invariant inflater.consumed + pending == source.data[start..source.position]
        invariant wanted ==> emitted <= Content(m, inflater.inflate, source.data, start)
        invariant wanted ==>
          Waiting(limits, m, inflater, source.data, start, compressedRemaining, pending, emitted)
        decreases compressedRemaining + |pending| + m.fileSize + 1 - memberBytes
      {
        if pending == [] {
          pending := source.Read(Min(limits.chunkBytes, compressedRemaining));
          if pending == [] {
            return false;
          }
          compressedRemaining := compressedRemaining - |pending|;
          assert inflater.consumed + [] == inflater.consumed;
          ReadOn(source.data, start, source.position - |pending|, source.position, inflater.consumed, pending);
        }
        var turn;
        turn, pending := InflateOnce(
          m, source, inflater, output, pending, writtenBefore, streamedBefore, start, compressedRemaining, wanted);
        if turn == Reject {
          return false;
        }
        if turn == Accept {
          if pending != [] || compressedRemaining != 0 {
            return false;
          }
          assert inflater.consumed == source.data[start..source.position];
          return true;
        }
      }
      return false;
    }

    /** One call of the decompressor: what comes out is written, and the verdict of the loop's checks. */
    method InflateOnce(
      m: Member, source: Source, inflater: Decompressor, output: Sink, input: Bytes,
      ghost writtenBefore: Bytes, ghost streamedBefore: nat, ghost start: nat, ghost compressedRemaining: nat,
      ghost wanted: bool)
      returns (turn: Turn, pending: Bytes)
      requires limits.Valid() && source.Valid() && InStep(m, output, writtenBefore, streamedBefore)
      requires PrefixFree(inflater.inflate) && !inflater.eof && inflater.produced == emitted && input != []
      requires compressedRemaining <= m.compressSize
      requires source.position == start + (m.compressSize - compressedRemaining)
      requires inflater.consumed + input == source.data[start..source.position]
      requires wanted ==> output.faithful
      requires wanted ==> Inflates(limits, m, inflater.inflate, source.data, start, streamedBefore)
      requires wanted ==> emitted <= Content(m, inflater.inflate, source.data, start)
      requires wanted && inflater.habit == Hoarding ==> emitted == []
      modifies this, inflater, output
      ensures Bounded(limits, m, writtenBefore, output.written, streamedBefore)
      ensures |pending| <= |input|
      ensures turn != Reject ==>
        && InStep(m, output, writtenBefore, streamedBefore) && inflater.produced == emitted
        && inflater.consumed + pending == source.data[start..source.position]
      ensures turn == Accept ==> inflater.inflate(inflater.consumed) == Complete(emitted) && !inflater.stalled
      ensures turn == Continue ==> !inflater.eof && (|pending| < |input| || memberBytes > old(memberBytes))
      ensures turn != Reject ==> memberBytes >= old(memberBytes)
      ensures wanted ==> turn != Reject && emitted <= Content(m, inflater.inflate, source.data, start)
      ensures wanted && turn == Accept ==>
        && pending == [] && compressedRemaining == 0
        && (inflater.habit == Hoarding ==> FitsChunk(limits, m, inflater.inflate, source.data, start))
      ensures wanted && turn == Continue ==>
        Waiting(limits, m, inflater, source.data, start, compressedRemaining, pending, emitted)
    {
      ghost var rest := Remaining(source.data, source.position, compressedRemaining);
      if wanted { StillToCome(limits, m, inflater, source.data, start, compressedRemaining, input, streamedBefore); }
      ghost var content := Content(m, inflater.inflate, source.data, start);
      var fed, chunk := Feed(m, inflater, output, input, writtenBefore, streamedBefore, rest, content, wanted);
      pending := inflater.unconsumedTail;
      if inflater.unusedData != [] || !fed {
        return Reject, pending;
      }
      assert inflater.consumed + [] == inflater.consumed;
      if inflater.eof {
        return Accept, pending;
      }
      if chunk == [] && |pending| >= |input| {
        return Reject, pending;
      }
      return Continue, pending;
    }

    /** The decompressor is called once, and what comes out is written unless there was data after the end. */
    method Feed(
      m: Member, inflater: Decompressor, output: Sink, input: Bytes, ghost writtenBefore: Bytes,
      ghost streamedBefore: nat, ghost rest: Bytes, ghost content: Bytes, ghost wanted: bool)
      returns (fed: bool, chunk: Bytes)
      requires limits.Valid() && InStep(m, output, writtenBefore, streamedBefore)
      requires !inflater.eof && inflater.produced == emitted && input != []
      requires wanted ==> output.faithful && inflater.OnTrack(input, rest)
      requires wanted ==> inflater.inflate(inflater.consumed + input + rest) == Complete(content)
      requires wanted ==> Allowed(limits, m, content, streamedBefore)
      modifies this, inflater, output
      ensures Bounded(limits, m, writtenBefore, output.written, streamedBefore)
      ensures |inflater.unconsumedTail| + |inflater.unusedData| <= |input|
      ensures inflater.consumed + inflater.unusedData + inflater.unconsumedTail == old(inflater.consumed) + input
      ensures inflater.eof ==> inflater.inflate(inflater.consumed) == Complete(inflater.produced)
      ensures inflater.stalled <==> !inflater.eof && inflater.unconsumedTail == [] && rest == []
      ensures fed ==> InStep(m, output, writtenBefore, streamedBefore)
      ensures fed ==> emitted == old(emitted) + chunk && inflater.produced == emitted
      ensures wanted ==> fed && inflater.Conforms(
        content, |old(emitted)|, input, OutputLimit(limits, m, old(memberBytes), old(streamedBytes)), rest, chunk)
    {
      chunk := inflater.Decompress(input, OutputLimit(limits, m, memberBytes, streamedBytes), rest);
      fed := false;
      if inflater.unusedData == [] {
        fed := Emit(m, chunk, output, writtenBefore, streamedBefore);
      }
    }

    /**
      The whole copy.  On success the output gained exactly the declared number of bytes, carrying
      the declared checksum, and they are what the member's compressed bytes stand for.
     */
    method CopyMember(m: Member, source: Source, inflater: Decompressor, output: Sink) returns (ok: bool)
      requires limits.Valid() && source.Valid()
      requires inflater.Fresh() && PrefixFree(inflater.inflate)
      modifies this, source, inflater, output
      ensures Bounded(limits, m, old(output.written), output.written, old(streamedBytes))
      ensures ok ==> source.Valid() && source.position == old(source.position) + m.compressSize
      ensures ok ==> |output.written| == |old(output.written)| + m.fileSize
      ensures ok ==> streamedBytes == old(streamedBytes) + m.fileSize
      ensures ok ==> Crc32(step, output.written[|old(output.written)|..], 0) == m.crc
      ensures ok ==> Stands(m, inflater.inflate, source.data[old(source.position)..source.position],
                            output.written[|old(output.written)|..])
      ensures !m.deflated && output.faithful ==> (ok <==>
        && m.compressSize == m.fileSize && m.fileSize <= |source.data| - old(source.position)
        && m.fileSize <= limits.maxMemberBytes
        && (m.fileSize == 0 || old(streamedBytes) + m.fileSize <= limits.maxTotalBytes)
        && Crc32(step, source.data[old(source.position)..old(source.position) + m.fileSize], 0) == m.crc)
      ensures m.deflated && output.faithful ==> (ok <==>
        Sound(limits, step, m, inflater.inflate, source.data, old(source.position), old(streamedBytes))
        && !inflater.stalled)
      ensures m.deflated && output.faithful && inflater.habit == Patient ==> (ok <==>
        Sound(limits, step, m, inflater.inflate, source.data, old(source.position), old(streamedBytes)))
      ensures m.deflated && output.faithful && inflater.habit == Hoarding ==> (ok <==>
        Sound(limits, step, m, inflater.inflate, source.data, old(source.position), old(streamedBytes))
        && m.fileSize <= limits.chunkBytes)
    {
      memberBytes, checksum, emitted := 0, 0, [];
      ghost var writtenBefore, streamedBefore := output.written, streamedBytes;
      assert writtenBefore + [] == writtenBefore;
      if m.deflated {
        ok := CopyDeflated(m, source, inflater, output, writtenBefore, streamedBefore);
      } else {
        ok := CopyStored(m, source, output, writtenBefore, streamedBefore);
      }
      if ok {
        assert output.written[|writtenBefore|..] == emitted;
        ok := memberBytes == m.fileSize && checksum == m.crc;
      }
    }
  }

  /** The compressed bytes of the member are there, complete, and inflate to something within every allowance. */
  ghost predicate Inflates(
    limits: Limits, m: Member, inflate: Bytes -> Stream, data: Bytes, start: nat, streamedBefore: nat) {
    && 0 < m.compressSize && start + m.compressSize <= |data|
    && inflate(data[start..start + m.compressSize]).Complete?
    && Allowed(limits, m, inflate(data[start..start + m.compressSize]).output, streamedBefore)
  }

  predicate Allowed(limits: Limits, m: Member, content: Bytes, streamedBefore: nat) {
    && |content| <= m.fileSize && |content| <= limits.maxMemberBytes
    && (content == [] || streamedBefore + |content| <= limits.maxTotalBytes)
  }

  function Content(m: Member, inflate: Bytes -> Stream, data: Bytes, start: nat): Bytes {
    if start + m.compressSize <= |data| && inflate(data[start..start + m.compressSize]).Complete?
    then inflate(data[start..start + m.compressSize]).output else []
  }

  /** The member is there and inflates to its declared size and checksum within every allowance. */
  ghost predicate Sound(
    limits: Limits, step: Step, m: Member, inflate: Bytes -> Stream, data: Bytes, start: nat, streamedBefore: nat) {
    && Inflates(limits, m, inflate, data, start, streamedBefore)
    && |Content(m, inflate, data, start)| == m.fileSize && Crc32(step, Content(m, inflate, data, start), 0) == m.crc
  }

  predicate FitsChunk(limits: Limits, m: Member, inflate: Bytes -> Stream, data: Bytes, start: nat) {
    |Content(m, inflate, data, start)| <= limits.chunkBytes
  }

  /** What of the member's compressed bytes is still to be read. */
  function Remaining(data: Bytes, now: nat, compressedRemaining: nat): Bytes
    requires now <= |data|
  {
    if now + compressedRemaining <= |data| then data[now..now + compressedRemaining] else data[now..]
  }

  /** Between two calls for a stream that should be accepted: there is more to feed, or the decompressor stalled. */
  ghost predicate Waiting(
    limits: Limits, m: Member, inflater: Decompressor, data: Bytes, start: nat, compressedRemaining: nat,
    pending: Bytes, emitted: Bytes)
    reads inflater
  {
    && (compressedRemaining != 0 || pending != [] || inflater.stalled)
    && (inflater.habit == Patient ==> !inflater.stalled)
    && (inflater.habit == Hoarding ==>
          && pending == []
          && if compressedRemaining != 0 then emitted == []
             else inflater.stalled && !FitsChunk(limits, m, inflater.inflate, data, start))
  }

  /** What is pending and what the file still holds complete the stream. */
  lemma StillToCome(
    limits: Limits, m: Member, inflater: Decompressor, data: Bytes, start: nat, compressedRemaining: nat, input: Bytes,
    streamedBefore: nat)
    requires compressedRemaining <= m.compressSize && start + m.compressSize <= |data| && limits.Valid()
    requires PrefixFree(inflater.inflate) && Inflates(limits, m, inflater.inflate, data, start, streamedBefore)
    requires inflater.consumed + input == data[start..start + (m.compressSize - compressedRemaining)]
    requires inflater.produced <= Content(m, inflater.inflate, data, start)
    ensures var rest := Remaining(data, start + (m.compressSize - compressedRemaining), compressedRemaining);
      && |rest| == compressedRemaining
      && inflater.consumed + input + rest == data[start..start + m.compressSize]
      && inflater.OnTrack(input, rest)
    ensures FitsChunk(limits, m, inflater.inflate, data, start)
      <==> |Content(m, inflater.inflate, data, start)| <= OutputLimit(limits, m, 0, streamedBefore)
  {
    var now := start + (m.compressSize - compressedRemaining);
    assert data[start..now] + data[now..start + m.compressSize] == data[start..start + m.compressSize];
  }

  lemma ReadOn(data: Bytes, start: nat, was: nat, now: nat, consumed: Bytes, chunk: Bytes)
    requires start <= was <= now <= |data|
    requires consumed == data[start..was] && chunk == data[was..now]
    ensures consumed + chunk == data[start..now]
  {
  }

  /** The output is the member's content: its bytes as stored, or what they inflate to. */
  ghost predicate Stands(m: Member, inflate: Bytes -> Stream, compressed: Bytes, content: Bytes) {
    if m.deflated then inflate(compressed) == Complete(content) else content == compressed
  }

  /** What reached the output stream stays within the declared size and the shared total. */
  ghost predicate Bounded(limits: Limits, m: Member, before: Bytes, after: Bytes, streamedBefore: nat) {
    && before <= after
    && |after| - |before| <= m.fileSize && |after| - |before| <= limits.maxMemberBytes
    && (after == before || streamedBefore + |after| - |before| <= limits.maxTotalBytes)
  }

  // ----- A sound member that is rejected

  /** A format with one stream, of one byte, for two. */
  function Doubled(input: Bytes): Stream {
    if input == [7] then Complete([1, 2]) else Incomplete
  }

  const ONE_BYTE_CHUNKS := Limits(1, 1, 2, 2, 2, 1)

  /** A decompressor that takes the only input while it holds a byte back stalls, and the sound member is lost. */
  method HoardedMemberIsRejected(step: Step) returns (ok: bool, m: Member, ghost stalled: bool)
    ensures Sound(ONE_BYTE_CHUNKS, step, m, Doubled, [7], 0, 0)
    ensures !ok && stalled
  {
    m := Member(true, 1, 2, Crc32(step, [1, 2], 0));
    var data: Bytes := [7];
    var source := new Source(data);
    var output := new Sink(true);
    var inflater := new Decompressor(Doubled, Hoarding);
    var copier := new MemberCopier(ONE_BYTE_CHUNKS, step, 0);
    assert data[0..0 + m.compressSize] == [7];
    ok := copier.CopyMember(m, source, inflater, output);
    stalled := inflater.stalled;
  }
}
