/**
 Buffered bodies in the SDK (packages/typescript/src/client.ts, buffer): chunks are packed into
 blocks that double in capacity, and every byte of capacity is paid for twice, once for the block
 and once for the final assembly, from a budget shared by all buffers (concurrency.ts, BufferBudget).
 */
module BufferAssembly {
  import opened Wrappers
  import opened Framing
  import opened Collections

  const BLOCK: nat := 65_536

  class BufferBudget {
    const limit: nat
    var retained: nat

    constructor (limit: nat)
      ensures this.limit == limit && retained == 0
    {
      this.limit, retained := limit, 0;
    }

    method Reserve(bytes: nat) returns (ok: bool)
      modifies this
      ensures ok <==> old(retained) + bytes <= limit
      ensures retained == old(retained) + (if ok then bytes else 0)
    {
      if retained + bytes > limit {
        return false;
      }
      retained := retained + bytes;
      return true;
    }

    method Release(bytes: nat)
      requires bytes <= retained
      modifies this
      ensures retained == old(retained) - bytes
    {
      retained := retained - bytes;
    }
  }

  predicate FullBlocks(blocks: seq<Bytes>) {
    forall i :: 0 <= i < |blocks| ==> |blocks[i]| == BLOCK
  }

  lemma {:induction false} FullBlocksLength(blocks: seq<Bytes>)
    requires FullBlocks(blocks)
    ensures |Flatten(blocks)| == BLOCK * |blocks|
  {
    if blocks != [] { FullBlocksLength(blocks[1..]); }
  }

  class Assembler {
    const budget: BufferBudget
    var blocks: seq<Bytes>
    var current: array<byte>
    var filled: nat
    var retained: nat
    var size: nat

    ghost predicate Valid()
      reads this, budget, current
    {
      && FullBlocks(blocks)
      && filled <= current.Length <= BLOCK
      && current.Length <= 2 * filled
      && size == BLOCK * |blocks| + filled
      && retained == 2 * (BLOCK * |blocks| + current.Length)
      && retained <= budget.retained <= budget.limit
    }

    /** The bytes taken in so far. */
    ghost function Content(): Bytes
      reads this, current
      requires filled <= current.Length
    {
      Flatten(blocks) + current[..filled]
    }

    /** What all other buffers hold. */
    ghost function Others(): int
      reads this, budget
    {
      budget.retained - retained
    }

    constructor (budget: BufferBudget)
      requires budget.retained <= budget.limit
      ensures Valid() && Content() == [] && retained == 0 && size == 0 && this.budget == budget && fresh(current)
    {
      this.budget := budget;
      blocks, filled, retained, size := [], 0, 0, 0;
      current := new byte[0];
    }

    /** The reservation always covers the held bytes twice and never more than four times. */
    lemma Proportion()
      requires Valid()
      ensures |Content()| == size && 2 * size <= retained <= 4 * size
    {
      FullBlocksLength(blocks);
    }

    /** A full block is put aside. */
    method Rotate()
      requires Valid() && filled == BLOCK
      modifies this
      ensures Valid() && filled == 0 && current.Length == 0 && fresh(current)
      ensures Content() == old(Content()) && retained == old(retained) && size == old(size)
    {
      FlattenLast(blocks, current[..]);
      assert current[..filled] == current[..];
      blocks := blocks + [current[..]];
      current := new byte[0];
      filled := 0;
      assert Flatten(blocks) + [] == Flatten(blocks);
    }

    /** The first bytes of a block are kept as they came, without a copy. */
    method Adopt(remaining: Bytes) returns (ok: bool)
      requires Valid() && current.Length == 0 && 0 < |remaining| <= BLOCK
      modifies this, budget
      ensures Valid() && Others() == old(Others()) && (current == old(current) || fresh(current))
      ensures ok ==> Content() == old(Content()) + remaining && size == old(size) + |remaining|
      ensures !ok ==> Content() == old(Content())
      ensures ok <==> old(budget.retained) + 2 * |remaining| <= budget.limit
    {
      ok := budget.Reserve(|remaining| * 2);
      if ok {
        retained := retained + |remaining| * 2;
        current := new byte[|remaining|](i requires 0 <= i < |remaining| => remaining[i]);
        filled := |remaining|;
        size := size + |remaining|;
        assert current[..filled] == remaining;
        assert old(Content()) == Flatten(blocks) + [];
        assert Flatten(blocks) + [] == Flatten(blocks);
      }
    }

    /** A filled-up buffer is replaced by a larger copy, at least doubling it within a block. */
    method Grow(rest: nat) returns (ok: bool)
      requires Valid() && 0 < filled == current.Length < BLOCK && 0 < rest
      modifies this, budget
      ensures FullBlocks(blocks) && blocks == old(blocks) && filled == old(filled) && size == old(size)
      ensures retained == 2 * (BLOCK * |blocks| + current.Length) && retained <= budget.retained <= budget.limit
      ensures Others() == old(Others()) && (current == old(current) || fresh(current))
      ensures filled <= current.Length <= BLOCK && Content() == old(Content())
      ensures ok ==> filled < current.Length && (current.Length <= 2 * filled || current.Length <= filled + rest)
      ensures !ok ==> current == old(current)
                      && old(budget.retained) + 2 * rest + 2 * filled > budget.limit
    {
      var wanted := if current.Length * 2 >= filled + rest then current.Length * 2 else filled + rest;
      var capacity := if BLOCK <= wanted then BLOCK else wanted;
      var reservation := (capacity - current.Length) * 2;
      ok := budget.Reserve(reservation);
      if ok {
        retained := retained + reservation;
        var old_current := current;
        current := new byte[capacity](i reads old_current => if 0 <= i < old_current.Length then old_current[i] else 0);
        assert current[..filled] == old_current[..filled];
      }
    }

    /** Copies as much of the chunk as fits behind what is filled. */
    method Copy(chunk: Bytes, offset: nat) returns (next: nat)
      requires filled < current.Length <= BLOCK && offset < |chunk| && FullBlocks(blocks)
      requires current.Length <= 2 * filled || current.Length <= filled + |chunk| - offset
      requires size == BLOCK * |blocks| + filled
      requires retained == 2 * (BLOCK * |blocks| + current.Length) && retained <= budget.retained <= budget.limit
      modifies `filled, `size, current
      ensures Valid() && offset < next <= |chunk| && size == old(size) + (next - offset)
      ensures Content() == old(Content()) + chunk[offset..next]
    {
      var count := if current.Length - filled <= |chunk| - offset then current.Length - filled else |chunk| - offset;
      ghost var before := current[..filled];
      forall i | filled <= i < filled + count {
        current[i] := chunk[offset + i - filled];
      }
      assert current[..filled + count] == before + chunk[offset..offset + count];
      Assoc(Flatten(blocks), before, chunk[offset..offset + count]);
      filled := filled + count;
      size := size + count;
      next := offset + count;
    }

    /** One turn of the copy loop: adopt, or grow and copy. */
    method Step(chunk: Bytes, offset: nat) returns (ok: bool, next: nat)
      requires Valid() && offset < |chunk| <= BLOCK
      modifies this, budget, current
      ensures Valid() && Others() == old(Others()) && (current == old(current) || fresh(current))
      ensures ok ==> offset < next <= |chunk| && size == old(size) + (next - offset)
                     && Content() == old(Content()) + chunk[offset..next]
      ensures !ok ==> old(Others()) + 4 * (old(size) + |chunk| - offset) > budget.limit
    {
      if filled == BLOCK {
        Rotate();
      }
      if current.Length == 0 {
        assert chunk[offset..] == chunk[offset..|chunk|];
        ok := Adopt(chunk[offset..]);
        return ok, |chunk|;
      }
      ok := true;
      if filled == current.Length {
        ok := Grow(|chunk| - offset);
      }
      if ok {
        next := Copy(chunk, offset);
      } else {
        next := offset;
      }
    }

    /**
     One received chunk. On success it is appended whole; on a refused reservation the caller gives
     up. Either way this buffer and the budget moved by the same amount, and the reservation is
     refused only if four times the bytes would not fit beside what the others hold.
     */
    method Absorb(chunk: Bytes) returns (ok: bool)
      requires Valid() && |chunk| <= BLOCK
      modifies this, budget, current
      ensures Valid() && Others() == old(Others()) && (current == old(current) || fresh(current))
      ensures ok ==> Content() == old(Content()) + chunk
      ensures old(Others()) + 4 * (old(size) + |chunk|) <= budget.limit ==> ok
    {
      ghost var before, others := Content(), Others();
      var offset := 0;
      while offset < |chunk|
        invariant 0 <= offset <= |chunk| && Valid() && Others() == others
        invariant current == old(current) || fresh(current)
        invariant Content() == before + chunk[..offset] && size == old(size) + offset
        decreases |chunk| - offset
      {
        var went, next := Step(chunk, offset);
        if !went {
          return false;
        }
        assert chunk[..offset] + chunk[offset..next] == chunk[..next];
        Assoc(before, chunk[..offset], chunk[offset..next]);
        offset := next;
      }
      assert chunk[..offset] == chunk;
      return true;
    }

    /** The final body: every block, then the filled part of the last one. */
    method Assemble() returns (body: Bytes)
      requires Valid()
      ensures body == Content() && |body| == size
    {
      Proportion();
      body := [];
      var i := 0;
      while i < |blocks|
        invariant i <= |blocks| && body == Flatten(blocks[..i])
      {
        FlattenLast(blocks[..i], blocks[i]);
        assert blocks[..i + 1] == blocks[..i] + [blocks[i]];
        body := body + blocks[i];
        i := i + 1;
      }
      assert blocks[..i] == blocks;
      body := body + current[..filled];
    }

    /** The `finally` block: the whole reservation goes back. */
    method Dispose()
      requires Valid()
      modifies this, budget
      ensures budget.retained == old(Others()) && retained == 0
    {
      budget.Release(retained);
      retained := 0;
    }
  }

  /**
   A whole buffered body, for chunks of at most one block: the assembled body is their
   concatenation, and on every exit the shared budget is what it was before.
   */
  method BufferBody(budget: BufferBudget, chunks: seq<Bytes>, completed: bool) returns (body: Option<Bytes>)
    requires budget.retained <= budget.limit
    requires forall i :: 0 <= i < |chunks| ==> |chunks[i]| <= BLOCK
    modifies budget
    ensures budget.retained == old(budget.retained)
    ensures body.Some? ==> body.value == Flatten(chunks) && completed
    ensures completed && old(budget.retained) + 4 * |Flatten(chunks)| <= budget.limit ==> body.Some?
  {
    var buffer := new Assembler(budget);
    ghost var others := budget.retained;
    var i := 0;
    while i < |chunks|
      invariant i <= |chunks| && buffer.Valid() && buffer.budget == budget && buffer.Others() == others
      invariant fresh(buffer) && fresh(buffer.current)
      invariant buffer.Content() == Flatten(chunks[..i])
    {
      FlattenLast(chunks[..i], chunks[i]);
      assert chunks[..i + 1] == chunks[..i] + [chunks[i]];
      FlattenPrefix(chunks, i + 1);
      buffer.Proportion();
      var ok := buffer.Absorb(chunks[i]);
      if !ok {
        buffer.Dispose();
        return None;
      }
      i := i + 1;
    }
    assert chunks[..i] == chunks;
    if completed {
      var whole := buffer.Assemble();
      body := Some(whole);
    } else {
      body := None;
    }
    buffer.Dispose();
  }

  lemma FlattenPrefix(chunks: seq<Bytes>, n: nat)
    requires n <= |chunks|
    ensures |Flatten(chunks[..n])| <= |Flatten(chunks)|
  {
    FlattenAppend(chunks[..n], chunks[n..]);
    assert chunks == chunks[..n] + chunks[n..];
  }

  // ----- many buffers on one budget -----

  /** A buffer's successful reservation, or its `finally`. Any number of buffers may interleave. */
  datatype Event = Reserve(id: nat, bytes: nat) | Finish(id: nat)

  datatype Shared = Shared(retained: nat, buffers: map<nat, nat>)

  function Apply(limit: nat, s: Shared, e: Event): Shared {
    match e
    case Reserve(id, bytes) =>
      if s.retained + bytes > limit then s
      else Shared(s.retained + bytes, s.buffers[id := (if id in s.buffers then s.buffers[id] else 0) + bytes])
    case Finish(id) =>
      if id !in s.buffers || s.retained < s.buffers[id] then s
      else Shared(s.retained - s.buffers[id], s.buffers - {id})
  }

  function Run(limit: nat, s: Shared, es: seq<Event>): Shared
    decreases |es|
  {
    if es == [] then s else Run(limit, Apply(limit, s, es[0]), es[1..])
  }

  /**
   However buffers interleave, the budget is the sum of what they hold and within its limit; once all
   are done it is empty.
   */
  lemma {:induction false} BudgetIsShared(limit: nat, s: Shared, es: seq<Event>)
    requires s.retained == Sum(s.buffers) <= limit
    ensures var t := Run(limit, s, es);
            t.retained == Sum(t.buffers) <= limit && (t.buffers == map[] ==> t.retained == 0)
    decreases |es|
  {
    if es != [] {
      match es[0] {
        case Reserve(id, bytes) => SumUpdate(s.buffers, id, (if id in s.buffers then s.buffers[id] else 0) + bytes);
        case Finish(id) => SumDelete(s.buffers, id);
      }
      BudgetIsShared(limit, Apply(limit, s, es[0]), es[1..]);
    }
  }
}
