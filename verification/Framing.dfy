/**
 The wire format both ends share: one kind byte, a big-endian 32-bit length, the payload
 (src/protocol.rs, packages/typescript/src/protocol.ts).
 */
module Framing {

  type byte = x: int | 0 <= x < 256
  type Bytes = seq<byte>

  /** MAX_METADATA_BYTES, MAX_DATA_BYTES, MAX_UPLOAD_FRAMES and FRAME_LIMIT. */
  const FRAME_LIMIT: nat := 65_536

  lemma Assoc(a: Bytes, b: Bytes, c: Bytes)
    ensures a + (b + c) == (a + b) + c
  {
  }

  // ----- chunked input -----

  function Flatten(chunks: seq<Bytes>): Bytes {
    if chunks == [] then [] else chunks[0] + Flatten(chunks[1..])
  }

  lemma {:induction false} FlattenAppend(a: seq<Bytes>, b: seq<Bytes>)
    ensures Flatten(a + b) == Flatten(a) + Flatten(b)
  {
    if a == [] {
      assert a + b == b;
    } else {
      FlattenAppend(a[1..], b);
      assert (a + b)[1..] == a[1..] + b;
      Assoc(a[0], Flatten(a[1..]), Flatten(b));
    }
  }

  lemma FlattenLast(a: seq<Bytes>, last: Bytes)
    ensures Flatten(a + [last]) == Flatten(a) + last
  {
    FlattenAppend(a, [last]);
    assert Flatten([last]) == last;
  }

  /** One step of a body stream: bytes, or the error that ends it. */
  datatype Item = Data(bytes: Bytes) | Failure

  /** The bytes a stream still delivers, however they are cut. */
  function Delivered(stream: seq<Item>): Bytes {
    if stream == [] || stream[0].Failure? then [] else stream[0].bytes + Delivered(stream[1..])
  }

  predicate Breaks(stream: seq<Item>) {
    stream != [] && (stream[0].Failure? || Breaks(stream[1..]))
  }

  // ----- frames -----

  /** `(n as u32).to_be_bytes()` and `setUint32`: the length modulo 2^32. */
  function BE32(n: nat): (b: Bytes)
    ensures |b| == 4
  {
    [(n / 0x100_0000) % 256, (n / 0x1_0000) % 256, (n / 0x100) % 256, n % 256]
  }

  /** `u32::from_be_bytes(header[1..5])` and `getUint32(1, false)` of the header at `pos`. */
  function LengthAt(b: Bytes, pos: nat): nat
    requires pos + 5 <= |b|
  {
    var hh: int, hl: int, lh: int := b[pos + 1], b[pos + 2], b[pos + 3];
    hh * 0x100_0000 + hl * 0x1_0000 + lh * 0x100 + b[pos + 4]
  }

  function Frame(kind: byte, payload: Bytes): Bytes {
    [kind] + BE32(|payload|) + payload
  }

  /** `b` holds a whole frame of this kind and payload at `pos`. */
  predicate FrameAt(b: Bytes, pos: nat, kind: byte, payload: Bytes) {
    && pos + 5 + |payload| <= |b|
    && b[pos] == kind
    && LengthAt(b, pos) == |payload|
    && b[pos + 5..pos + 5 + |payload|] == payload
  }

  /** Printing a frame puts exactly that frame into the stream, whatever surrounds it. */
  lemma FramePrints(before: Bytes, kind: byte, payload: Bytes, after: Bytes)
    requires |payload| < 0x1_0000_0000
    ensures FrameAt(before + Frame(kind, payload) + after, |before|, kind, payload)
  {
    var b, pos, n := before + Frame(kind, payload) + after, |before|, |payload|;
    assert b[pos..pos + 5] == [kind] + BE32(n);
    assert b[pos + 1] == BE32(n)[0] && b[pos + 2] == BE32(n)[1] && b[pos + 3] == BE32(n)[2] && b[pos + 4] == BE32(n)[3];
    assert n / 0x100 == (n / 0x1_0000) * 256 + (n / 0x100) % 256;
    assert n / 0x1_0000 == (n / 0x100_0000) * 256 + (n / 0x1_0000) % 256;
  }

  /** Bytes that parse as a frame are the printed form of that frame. */
  lemma FrameParses(b: Bytes, pos: nat, kind: byte, payload: Bytes)
    requires FrameAt(b, pos, kind, payload)
    ensures |payload| < 0x1_0000_0000 && b[pos..pos + 5 + |payload|] == Frame(kind, payload)
  {
    var n := LengthAt(b, pos);
    var hh: int, hl: int, lh: int := b[pos + 1], b[pos + 2], b[pos + 3];
    assert n / 0x100 == hh * 0x1_0000 + hl * 0x100 + lh;
    assert n / 0x1_0000 == hh * 0x100 + hl;
    assert n / 0x100_0000 == hh;
    assert BE32(n) == b[pos + 1..pos + 5];
    assert b[pos..pos + 5 + n] == [b[pos]] + b[pos + 1..pos + 5] + b[pos + 5..pos + 5 + n];
  }

  // ----- bodies cut into data frames -----

  /** `chunk.chunks(max)` and the sender's `subarray(offset, offset + max)`: full pieces, then the rest. */
  function Split(b: Bytes, max: nat): (ps: seq<Bytes>)
    requires max > 0
    decreases |b|
    ensures forall i :: 0 <= i < |ps| ==> 0 < |ps[i]| <= max
  {
    if b == [] then []
    else if |b| <= max then [b]
    else [b[..max]] + Split(b[max..], max)
  }

  /** The first piece of a non-empty block, and the cut of what follows it. */
  lemma SplitFirst(b: Bytes, max: nat, n: nat)
    requires max > 0 && b != [] && n == if |b| <= max then |b| else max
    ensures Split(b, max) == [b[..n]] + Split(b[n..], max)
  {
    if n == |b| { assert b[..n] == b && b[n..] == []; }
  }

  lemma {:induction false} SplitFlattens(b: Bytes, max: nat)
    requires max > 0
    ensures Flatten(Split(b, max)) == b
    decreases |b|
  {
    if |b| > max {
      SplitFlattens(b[max..], max);
      assert b == b[..max] + b[max..];
    } else if b != [] {
      assert [b][1..] == [];
    }
  }

  function Pieces(chunks: seq<Bytes>, max: nat): seq<Bytes>
    requires max > 0
  {
    if chunks == [] then [] else Split(chunks[0], max) + Pieces(chunks[1..], max)
  }

  predicate Sized(ps: seq<Bytes>, max: nat) {
    forall i :: 0 <= i < |ps| ==> 0 < |ps[i]| <= max
  }

  lemma {:induction false} PiecesFlatten(chunks: seq<Bytes>, max: nat)
    requires max > 0
    ensures Flatten(Pieces(chunks, max)) == Flatten(chunks) && Sized(Pieces(chunks, max), max)
  {
    if chunks != [] {
      PiecesFlatten(chunks[1..], max);
      SplitFlattens(chunks[0], max);
      FlattenAppend(Split(chunks[0], max), Pieces(chunks[1..], max));
    }
  }

  /** The data frames of a body, back to back. */
  function Render(ps: seq<Bytes>): Bytes {
    if ps == [] then [] else Frame(2, ps[0]) + Render(ps[1..])
  }

  lemma {:induction false} RenderAppend(a: seq<Bytes>, b: seq<Bytes>)
    ensures Render(a + b) == Render(a) + Render(b)
  {
    if a == [] {
      assert a + b == b;
    } else {
      RenderAppend(a[1..], b);
      assert (a + b)[1..] == a[1..] + b;
      Assoc(Frame(2, a[0]), Render(a[1..]), Render(b));
    }
  }

  lemma RenderFirst(ps: seq<Bytes>, end: Bytes)
    requires ps != []
    ensures Render(ps) + end == Frame(2, ps[0]) + (Render(ps[1..]) + end)
  {
    Assoc(Frame(2, ps[0]), Render(ps[1..]), end);
  }

  /** From `pos` on, `b` is the data frames `ps` and then one frame of kind `last`, to the end. */
  predicate BodyAt(b: Bytes, pos: nat, ps: seq<Bytes>, last: byte, payload: Bytes)
    decreases |ps|
  {
    if ps == [] then FrameAt(b, pos, last, payload) && |b| == pos + 5 + |payload|
    else FrameAt(b, pos, 2, ps[0]) && BodyAt(b, pos + 5 + |ps[0]|, ps[1..], last, payload)
  }

  lemma {:induction false} BodyPrints(before: Bytes, ps: seq<Bytes>, last: byte, payload: Bytes)
    requires |payload| < 0x1_0000_0000 && forall i :: 0 <= i < |ps| ==> |ps[i]| < 0x1_0000_0000
    ensures BodyAt(before + (Render(ps) + Frame(last, payload)), |before|, ps, last, payload)
    decreases |ps|
  {
    if ps == [] {
      FramePrints(before, last, payload, []);
      assert before + (Render(ps) + Frame(last, payload)) == before + Frame(last, payload) + [];
    } else {
      var head, rest := Frame(2, ps[0]), Render(ps[1..]) + Frame(last, payload);
      var b := before + (Render(ps) + Frame(last, payload));
      assert b == before + head + rest by {
        RenderFirst(ps, Frame(last, payload));
        Assoc(before, head, rest);
      }
      assert FrameAt(b, |before|, 2, ps[0]) by { FramePrints(before, 2, ps[0], rest); }
      var next := |before| + 5 + |ps[0]|;
      assert |before + head| == next;
      BodyPrints(before + head, ps[1..], last, payload);
      assert BodyAt(b, next, ps[1..], last, payload);
    }
  }

  lemma {:induction false} BodyParses(b: Bytes, pos: nat, ps: seq<Bytes>, last: byte, payload: Bytes)
    requires BodyAt(b, pos, ps, last, payload)
    ensures pos <= |b| && b[pos..] == Render(ps) + Frame(last, payload)
    decreases |ps|
  {
    if ps == [] {
      FrameParses(b, pos, last, payload);
    } else {
      FrameParses(b, pos, 2, ps[0]);
      var next := pos + 5 + |ps[0]|;
      BodyParses(b, next, ps[1..], last, payload);
      RenderFirst(ps, Frame(last, payload));
      assert b[pos..] == b[pos..next] + b[next..];
    }
  }

  lemma FlattenFirst(ps: seq<Bytes>)
    requires ps != []
    ensures |Flatten(ps)| == |ps[0]| + |Flatten(ps[1..])|
  {
  }
}
