/**
 The upload direction: the SDK's frame producer (packages/typescript/src/protocol.ts) and the
 service's frame consumer (src/protocol.rs). The two are written against functions of the plain
 byte sequence, and the functions are proved to agree.
 */
module Upload {
  import opened Wrappers
  import opened Framing

  datatype Code = ProtocolError | BodyTooLarge

  datatype End = Accepted | Refused(code: Code)

  /** What the service forwarded upstream, and how the upload ended. */
  datatype Decoded = Decoded(forwarded: Bytes, end: End)

  /** A data frame's payload, or the end of the upload. */
  datatype Turn = Payload(bytes: Bytes) | Final(end: End)

  datatype Accept = Accept(limit: nat, hasBody: bool, bodyLength: Option<nat>)

  // ----- the service's decoder as a function of the bytes -----

  /** The metadata payload, when the input starts with an acceptable metadata frame. */
  function DecodeMetadata(b: Bytes): Option<Bytes> {
    if |b| < 5 || b[0] != 1 then None
    else
      var n := LengthAt(b, 0);
      if n == 0 || n > FRAME_LIMIT || |b| < 5 + n then None else Some(b[5..5 + n])
  }

  /** One turn of the decoder's loop, with the header at `pos`. */
  function Parse(b: Bytes, pos: nat, broken: bool, a: Accept, count: nat): (turn: Turn)
    ensures turn.Payload? ==> pos + 5 + |turn.bytes| <= |b|
  {
    if |b| < pos + 5 then Final(Refused(ProtocolError))
    else
      var n := LengthAt(b, pos);
      if b[pos] == 2 then
        if !a.hasBody || n > FRAME_LIMIT then Final(Refused(ProtocolError))
        else if count + n > a.limit then Final(Refused(BodyTooLarge))
        else if a.bodyLength.Some? && count + n > a.bodyLength.value then Final(Refused(ProtocolError))
        else if |b| < pos + 5 + n then Final(Refused(ProtocolError))
        else Payload(b[pos + 5..pos + 5 + n])
      else if b[pos] == 3 && n == 0
           && !(a.bodyLength.Some? && count != a.bodyLength.value) && |b| == pos + 5 && !broken then
        Final(Accepted)
      else Final(Refused(ProtocolError))
  }

  /** The decoder's loop from `pos`, with `sent` forwarded so far and `turns` turns left. */
  function Decode(b: Bytes, pos: nat, broken: bool, a: Accept, sent: Bytes, turns: nat): Decoded
    decreases turns
  {
    if turns == 0 then Decoded(sent, Refused(ProtocolError))
    else
      match Parse(b, pos, broken, a, |sent|)
      case Final(end) => Decoded(sent, end)
      case Payload(p) => Decode(b, pos + 5 + |p|, broken, a, sent + p, turns - 1)
  }

  // ----- the service's reader over arbitrarily cut input -----

  class FrameReader {
    var pending: Bytes
    var stream: seq<Item>

    constructor (body: seq<Item>)
      ensures Rest() == Delivered(body) && Broken() == Breaks(body)
    {
      pending, stream := [], body;
    }

    /** Everything that can still be read. */
    function Rest(): Bytes
      reads this
    {
      pending + Delivered(stream)
    }

    predicate Broken()
      reads this
    {
      Breaks(stream)
    }

    /** Skips empty chunks; `failed` is a stream error, otherwise `more` tells whether bytes remain. */
    method NextBytes() returns (failed: bool, more: bool)
      modifies this
      ensures failed ==> old(Rest()) == [] && old(Broken())
      ensures !failed ==> Rest() == old(Rest()) && Broken() == old(Broken())
      ensures !failed ==> more == (Rest() != []) && more == (pending != [])
      ensures !failed && !more ==> !old(Broken())
    {
      while pending == []
        invariant Rest() == old(Rest()) && Broken() == old(Broken())
        decreases |stream|
      {
        if stream == [] {
          return false, false;
        }
        var item := stream[0];
        stream := stream[1..];
        match item {
          case Data(bytes) => pending := bytes;
          case Failure => return true, false;
        }
      }
      return false, true;
    }

    method Exact(length: nat) returns (bytes: Option<Bytes>)
      modifies this
      ensures bytes.Some? <==> |old(Rest())| >= length
      ensures bytes.Some? ==> bytes.value == old(Rest())[..length] && Rest() == old(Rest())[length..]
                              && Broken() == old(Broken())
    {
      ghost var all := Rest();
      if |pending| >= length {
        bytes := Some(pending[..length]);
        pending := pending[length..];
        assert all[length..] == pending + Delivered(stream);
      } else {
        bytes := Fill(length);
        if bytes.Some? {
          assert bytes.value == all[..length] && Rest() == all[length..];
        }
      }
    }

    /** Gathers `length` bytes over as many chunks as it takes. */
    method Fill(length: nat) returns (bytes: Option<Bytes>)
      modifies this
      ensures bytes.None? ==> |old(Rest())| < length
      ensures bytes.Some? ==> |bytes.value| == length && old(Rest()) == bytes.value + Rest()
                              && Broken() == old(Broken())
    {
      var buffer: Bytes := [];
      while |buffer| < length
        invariant |buffer| <= length && old(Rest()) == buffer + Rest() && Broken() == old(Broken())
        decreases length - |buffer|
      {
        var failed, more := NextBytes();
        if failed || !more {
          return None;
        }
        var take := if length - |buffer| <= |pending| then length - |buffer| else |pending|;
        ghost var later := Delivered(stream);
        assert pending + later == pending[..take] + (pending[take..] + later);
        Assoc(buffer, pending[..take], pending[take..] + later);
        buffer := buffer + pending[..take];
        pending := pending[take..];
      }
      bytes := Some(buffer);
    }

    /** The kind byte and payload length, or nothing when the input ends inside the header. */
    method FrameHeader(ghost b: Bytes, ghost pos: nat) returns (header: Option<(byte, nat)>)
      requires pos <= |b| && Rest() == b[pos..]
      modifies this
      ensures header.Some? <==> pos + 5 <= |b|
      ensures header.Some? ==> header.value == (b[pos], LengthAt(b, pos))
                               && Rest() == b[pos + 5..] && Broken() == old(Broken())
    {
      var bytes := Exact(5);
      if bytes.None? {
        return None;
      }
      assert forall i :: 0 <= i < 5 ==> bytes.value[i] == b[pos + i];
      assert b[pos..][5..] == b[pos + 5..];
      header := Some((bytes.value[0], LengthAt(bytes.value, 0)));
    }

    method Metadata() returns (payload: Option<Bytes>)
      modifies this
      ensures payload == DecodeMetadata(old(Rest()))
      ensures payload.Some? ==> Rest() == old(Rest())[5 + |payload.value|..] && Broken() == old(Broken())
    {
      ghost var b := Rest();
      assert b[0..] == b;
      var header := FrameHeader(b, 0);
      if header.None? || header.value.0 != 1 || header.value.1 == 0 || header.value.1 > FRAME_LIMIT {
        return None;
      }
      payload := Exact(header.value.1);
      if payload.Some? {
        assert payload.value == b[5..5 + header.value.1];
        assert b[5..][header.value.1..] == b[5 + header.value.1..];
      }
    }

    method ReadFrame(a: Accept, count: nat, ghost b: Bytes, ghost pos: nat) returns (turn: Turn)
      requires pos <= |b| && Rest() == b[pos..]
      modifies this
      ensures turn == Parse(b, pos, old(Broken()), a, count)
      ensures turn.Payload? ==> Rest() == b[pos + 5 + |turn.bytes|..] && Broken() == old(Broken())
    {
      var header := FrameHeader(b, pos);
      if header.None? {
        return Final(Refused(ProtocolError));
      }
      var (kind, length) := header.value;
      if kind == 2 {
        if !a.hasBody || length > FRAME_LIMIT {
          return Final(Refused(ProtocolError));
        }
        if count + length > a.limit {
          return Final(Refused(BodyTooLarge));
        }
        if a.bodyLength.Some? && count + length > a.bodyLength.value {
          return Final(Refused(ProtocolError));
        }
        var payload := Exact(length);
        if payload.None? {
          return Final(Refused(ProtocolError));
        }
        assert payload.value == b[pos + 5..pos + 5 + length];
        assert b[pos + 5..][length..] == b[pos + 5 + length..];
        return Payload(payload.value);
      }
      if kind == 3 && length == 0 && !(a.bodyLength.Some? && count != a.bodyLength.value) {
        var failed, more := NextBytes();
        return Final(if failed || more then Refused(ProtocolError) else Accepted);
      }
      return Final(Refused(ProtocolError));
    }

    /** The consuming loop: its result depends on the delivered bytes alone, not on how they are cut. */
    method ReadUpload(a: Accept, ghost b: Bytes, ghost start: nat) returns (result: Decoded)
      requires start <= |b| && Rest() == b[start..]
      modifies this
      ensures result == Decode(b, start, old(Broken()), a, [], FRAME_LIMIT)
    {
      result := ReadTurns(a, FRAME_LIMIT, b, start);
    }

    method ReadTurns(a: Accept, turns: nat, ghost b: Bytes, ghost start: nat) returns (result: Decoded)
      requires start <= |b| && Rest() == b[start..]
      modifies this
      ensures result == Decode(b, start, old(Broken()), a, [], turns)
    {
      ghost var pos: nat, broken := start, Broken();
      var sent: Bytes := [];
      var left := turns;
      while left > 0
        invariant pos <= |b| && Rest() == b[pos..] && Broken() == broken
        invariant Decode(b, start, broken, a, [], turns) == Decode(b, pos, broken, a, sent, left)
      {
        ghost var here := Decode(b, pos, broken, a, sent, left);
        var step := ReadFrame(a, |sent|, b, pos);
        match step {
          case Final(end) => return Decoded(sent, end);
          case Payload(bytes) =>
            sent := sent + bytes;
            pos := pos + 5 + |bytes|;
            left := left - 1;
            assert here == Decode(b, pos, broken, a, sent, left);
        }
      }
      result := Decoded(sent, Refused(ProtocolError));
    }
  }

  // ----- the SDK's producer -----

  datatype Bounds = Bounds(maxBytes: nat, maxData: nat, maxFrames: nat)

  /**
   What the producer still emits from a pending block and the blocks the source will give, or
   nothing when it gives up: `frames` data frames and `bytes` bytes are out, `empties` empty reads
   came in a row.
   */
  function Encode(pend: Bytes, source: seq<Bytes>, m: Bounds, frames: nat, empties: nat, bytes: nat): Option<Bytes>
    requires m.maxData > 0
    decreases |source|, |pend|
  {
    if pend != [] then
      var n := if |pend| <= m.maxData then |pend| else m.maxData;
      if bytes + n > m.maxBytes || frames + 1 >= m.maxFrames then None
      else
        Prefixed(Frame(2, pend[..n]), Encode(pend[n..], source, m, frames + 1, empties, bytes + n))
    else if source == [] then Some(Frame(3, []))
    else if source[0] == [] then
      if empties + 1 >= m.maxFrames then None else Encode([], source[1..], m, frames, empties + 1, bytes)
    else Encode(source[0], source[1..], m, frames, 0, bytes)
  }

  function Prefixed(bytes: Bytes, rest: Option<Bytes>): Option<Bytes> {
    if rest.None? then None else Some(bytes + rest.value)
  }

  datatype Pull = Enqueue(bytes: Bytes) | Close(bytes: Bytes) | Error

  /** `uploadFrames`: one wire frame per pull. */
  class UploadFrames {
    const metadata: Bytes
    const bounds: Bounds
    var pending: Bytes
    var offset: nat
    var source: seq<Bytes>
    var stage: nat
    var ended: bool
    var frames: nat
    var emptyReads: nat
    var bytes: nat

    predicate Valid()
      reads this
    {
      bounds.maxData > 0 && offset <= |pending| && stage <= 1
    }

    /** What is left to emit: the metadata frame if it is still due, then the encoded body. */
    ghost function Plan(): Option<Bytes>
      reads this
      requires Valid()
    {
      if stage == 0 then Prefixed(Frame(1, metadata), Body()) else Body()
    }

    /** `block` is a body given whole; `source` holds the reads of a streamed body. */
    constructor (metadata: Bytes, block: Bytes, source: seq<Bytes>, bounds: Bounds)
      requires bounds.maxData > 0
      ensures Valid() && !ended && stage == 0 && this.bounds == bounds && this.metadata == metadata
      ensures pending == block && offset == 0 && this.source == source
      ensures frames == 0 && emptyReads == 0 && bytes == 0
    {
      this.metadata, this.bounds := metadata, bounds;
      pending, offset, this.source := block, 0, source;
      stage, ended, frames, emptyReads, bytes := 0, false, 0, 0, 0;
    }

    /** What the pending block and the remaining reads still encode to. */
    ghost function Body(): Option<Bytes>
      reads this
      requires Valid()
    {
      Encode(pending[offset..], source, bounds, frames, emptyReads, bytes)
    }

    /** Gives up: nothing more is emitted. */
    method Cancel()
      requires Valid()
      modifies `ended, `pending, `offset
      ensures Valid() && ended
    {
      ended := true;
      pending, offset := [], 0;
    }

    /** Reads on until a block has bytes or the source is done; too many empty reads are an error. */
    method Refill() returns (failed: bool)
      requires Valid() && !ended && stage == 1
      modifies this
      ensures Valid() && stage == 1 && ended == failed
      ensures failed ==> old(Body()).None?
      ensures !failed ==> Body() == old(Body()) && (offset < |pending| || source == [])
      ensures || |source| < old(|source|)
              || (source == old(source) && (failed || (pending == old(pending) && offset == old(offset))))
    {
      ghost var plan := Body();
      while offset == |pending| && source != []
        invariant Valid() && !ended && stage == 1 && plan == Body()
        invariant || |source| < old(|source|)
                  || (source == old(source) && pending == old(pending) && offset == old(offset))
        decreases |source|
      {
        var block := source[0];
        assert pending[offset..] == [];
        source := source[1..];
        if block == [] {
          emptyReads := emptyReads + 1;
          if emptyReads >= bounds.maxFrames {
            Cancel();
            return true;
          }
        } else {
          emptyReads := 0;
        }
        pending, offset := block, 0;
        assert pending[offset..] == block;
      }
      return false;
    }

    method PullFrame() returns (item: Pull)
      requires Valid() && !ended
      modifies this
      ensures Valid()
      ensures item.Error? ==> old(Plan()).None? && ended
      ensures item.Close? ==> old(Plan()) == Some(item.bytes) && ended
      ensures item.Enqueue? ==> !ended && stage == 1
      ensures item.Enqueue? ==> old(Plan()) == Prefixed(item.bytes, Body())
      ensures item.Enqueue? && old(stage) == 1 ==>
                |source| < old(|source|)
                || (|source| == old(|source|) && |pending| - offset < old(|pending| - offset))
    {
      if stage == 0 {
        stage := 1;
        return Enqueue(Frame(1, metadata));
      }
      var failed := Refill();
      if failed {
        return Error;
      }
      if offset == |pending| {
        assert pending[offset..] == [];
        Cancel();
        return Close(Frame(3, []));
      }
      item := Cut();
    }

    /** The next data frame of the pending block. */
    method Cut() returns (item: Pull)
      requires Valid() && !ended && stage == 1 && offset < |pending|
      modifies this
      ensures Valid()
      ensures item.Error? ==> old(Body()).None? && ended
      ensures !item.Error? ==> item.Enqueue? && !ended && stage == 1 && old(Body()) == Prefixed(item.bytes, Body())
      ensures item.Enqueue? ==> source == old(source) && |pending| - offset < old(|pending| - offset)
    {
      var n := if |pending| - offset <= bounds.maxData then |pending| - offset else bounds.maxData;
      var chunk := pending[offset..offset + n];
      ghost var pend := pending[offset..];
      assert chunk == pend[..n] && pending[offset + n..] == pend[n..];
      if bytes + n > bounds.maxBytes {
        Cancel();
        return Error;
      }
      frames := frames + 1;
      if frames >= bounds.maxFrames {
        Cancel();
        return Error;
      }
      bytes := bytes + n;
      offset := offset + n;
      item := Enqueue(Frame(2, chunk));
    }

    /** Pulling to the end emits exactly the plan, or fails exactly when there is none. */
    method Drain() returns (out: Option<seq<Bytes>>)
      requires Valid() && !ended
      modifies this
      ensures match old(Plan())
              case None => out.None?
              case Some(all) => out.Some? && Flatten(out.value) == all
    {
      ghost var plan := Plan();
      var parts: seq<Bytes> := [];
      assert plan.Some? ==> [] + plan.value == plan.value;
      while true
        invariant Valid() && !ended
        invariant plan == Prefixed(Flatten(parts), Plan())
        decreases if stage == 0 then 1 else 0, |source|, |pending| - offset
      {
        var item := PullFrame();
        match item {
          case Error => return None;
          case Close(bytes) =>
            FlattenLast(parts, bytes);
            return Some(parts + [bytes]);
          case Enqueue(bytes) =>
            FlattenLast(parts, bytes);
            if Plan().Some? { Assoc(Flatten(parts), bytes, Plan().value); }
            parts := parts + [bytes];
        }
      }
    }
  }

  // ----- the two ends agree -----

  /** No `max` empty reads come in a row, counting `run` that already came. */
  predicate EmptyRunsBelow(source: seq<Bytes>, run: nat, max: nat) {
    source == []
    || (if source[0] == [] then run + 1 < max && EmptyRunsBelow(source[1..], run + 1, max)
        else EmptyRunsBelow(source[1..], 0, max))
  }

  /** The producer finishes exactly when bytes, data frames and empty runs stay in bounds, and emits the cut body. */
  lemma {:induction false} EncodeIs(pend: Bytes, source: seq<Bytes>, m: Bounds, frames: nat, empties: nat, bytes: nat)
    requires m.maxData > 0 && bytes <= m.maxBytes && frames < m.maxFrames
    ensures var ps := Split(pend, m.maxData) + Pieces(source, m.maxData);
            var out := Encode(pend, source, m, frames, empties, bytes);
            && (out.Some? <==> bytes + |Flatten(ps)| <= m.maxBytes && frames + |ps| < m.maxFrames
                               && EmptyRunsBelow(source, empties, m.maxFrames))
            && (out.Some? ==> out.value == Render(ps) + Frame(3, []))
    decreases |source|, |pend|
  {
    var ps := Split(pend, m.maxData) + Pieces(source, m.maxData);
    if pend != [] {
      EncodePiece(pend, source, m, frames, empties, bytes);
    } else if source == [] {
      assert ps == [];
    } else {
      assert ps == Split(source[0], m.maxData) + Pieces(source[1..], m.maxData);
      if source[0] == [] {
        EncodeIs([], source[1..], m, frames, empties + 1, bytes);
      } else {
        EncodeIs(source[0], source[1..], m, frames, 0, bytes);
      }
    }
  }

  lemma FirstPiece(pend: Bytes, source: seq<Bytes>, max: nat, n: nat)
    requires max > 0 && pend != [] && n == (if |pend| <= max then |pend| else max)
    ensures Split(pend, max) + Pieces(source, max) == [pend[..n]] + (Split(pend[n..], max) + Pieces(source, max))
  {
    SplitFirst(pend, max, n);
    AssocPieces([pend[..n]], Split(pend[n..], max), Pieces(source, max));
  }

  lemma AssocPieces(a: seq<Bytes>, b: seq<Bytes>, c: seq<Bytes>)
    ensures (a + b) + c == a + (b + c)
  {
  }

  lemma ConsRenders(p: Bytes, qs: seq<Bytes>, last: Bytes)
    ensures |Flatten([p] + qs)| == |p| + |Flatten(qs)| && Render([p] + qs) + last == Frame(2, p) + (Render(qs) + last)
  {
    var ps := [p] + qs;
    assert ps[0] == p && ps[1..] == qs;
    FlattenFirst(ps);
    RenderFirst(ps, last);
  }

  lemma {:induction false} EncodePiece(pend: Bytes, source: seq<Bytes>, m: Bounds,
                                       frames: nat, empties: nat, bytes: nat)
    requires m.maxData > 0 && bytes <= m.maxBytes && frames < m.maxFrames && pend != []
    ensures var ps := Split(pend, m.maxData) + Pieces(source, m.maxData);
            var out := Encode(pend, source, m, frames, empties, bytes);
            && (out.Some? <==> bytes + |Flatten(ps)| <= m.maxBytes && frames + |ps| < m.maxFrames
                               && EmptyRunsBelow(source, empties, m.maxFrames))
            && (out.Some? ==> out.value == Render(ps) + Frame(3, []))
    decreases |source|, |pend|, 0
  {
    var n := if |pend| <= m.maxData then |pend| else m.maxData;
    var qs := Split(pend[n..], m.maxData) + Pieces(source, m.maxData);
    FirstPiece(pend, source, m.maxData, n);
    ConsRenders(pend[..n], qs, Frame(3, []));
    if bytes + n <= m.maxBytes && frames + 1 < m.maxFrames {
      EncodeIs(pend[n..], source, m, frames + 1, empties, bytes + n);
    }
  }

  /** `a` admits a body of `total` bytes. */
  predicate Admits(a: Accept, total: nat) {
    total <= a.limit && (a.bodyLength.Some? ==> a.bodyLength.value == total)
  }

  /**
   The receiver's loop bound is exact: data frames of a body within all other limits are accepted,
   and forwarded byte for byte, exactly when they leave one turn for the end frame.
   */
  lemma {:induction false} DecodeBody(b: Bytes, pos: nat, ps: seq<Bytes>, a: Accept, sent: Bytes, turns: nat)
    requires BodyAt(b, pos, ps, 3, [])
    requires Sized(ps, FRAME_LIMIT) && Admits(a, |sent| + |Flatten(ps)|) && (ps != [] ==> a.hasBody)
    ensures var d := Decode(b, pos, false, a, sent, turns);
            && (d.end.Accepted? <==> |ps| < turns)
            && (d.end.Accepted? ==> d.forwarded == sent + Flatten(ps))
    decreases |ps|
  {
    if turns == 0 { return; }
    if ps == [] {
      assert Parse(b, pos, false, a, |sent|) == Final(Accepted);
    } else {
      FlattenFirst(ps);
      assert Parse(b, pos, false, a, |sent|) == Payload(ps[0]);
      DecodeBody(b, pos + 5 + |ps[0]|, ps[1..], a, sent + ps[0], turns - 1);
      Assoc(sent, ps[0], Flatten(ps[1..]));
    }
  }

  /**
   Upload end to end: whatever the metadata, the body, its source chunking and the chunking on the
   wire, if the producer finishes under limits the service advertises, the service reads back the
   same metadata, accepts the body and forwards exactly its bytes.
   */
  lemma EndToEnd(metadata: Bytes, block: Bytes, source: seq<Bytes>, m: Bounds, a: Accept, wire: seq<Item>)
    requires 0 < |metadata| <= FRAME_LIMIT
    requires 0 < m.maxData <= FRAME_LIMIT && 0 < m.maxFrames <= FRAME_LIMIT && m.maxBytes <= a.limit
    requires block + Flatten(source) != [] ==> a.hasBody
    requires a.bodyLength.Some? ==> a.bodyLength.value == |block + Flatten(source)|
    requires Encode(block, source, m, 0, 0, 0).Some?
    requires Delivered(wire) == Frame(1, metadata) + Encode(block, source, m, 0, 0, 0).value && !Breaks(wire)
    ensures DecodeMetadata(Delivered(wire)) == Some(metadata)
    ensures Decode(Delivered(wire), 5 + |metadata|, Breaks(wire), a, [], FRAME_LIMIT)
         == Decoded(block + Flatten(source), Accepted)
  {
    var ps := Split(block, m.maxData) + Pieces(source, m.maxData);
    var out := Encode(block, source, m, 0, 0, 0).value;
    FramePrints([], 1, metadata, out);
    assert [] + Frame(1, metadata) + out == Delivered(wire);
    EncodeIs(block, source, m, 0, 0, 0);
    CutFlattens(block, source, m.maxData);
    assert Sized(ps, FRAME_LIMIT);
    assert ps != [] ==> Flatten(ps) != [] by { if ps != [] { FlattenFirst(ps); } }
    BodyPrints(Frame(1, metadata), ps, 3, []);
    DecodeBody(Delivered(wire), 5 + |metadata|, ps, a, [], FRAME_LIMIT);
  }

  lemma CutFlattens(block: Bytes, source: seq<Bytes>, max: nat)
    requires max > 0
    ensures Flatten(Split(block, max) + Pieces(source, max)) == block + Flatten(source)
    ensures Sized(Split(block, max) + Pieces(source, max), max)
  {
    SplitFlattens(block, max);
    PiecesFlatten(source, max);
    FlattenAppend(Split(block, max), Pieces(source, max));
  }

  /** The two frame bounds coincide: what the producer refuses for its frame count, the consumer would refuse too. */
  lemma FrameBoundsCoincide(source: seq<Bytes>, m: Bounds, a: Accept)
    requires 0 < m.maxData <= FRAME_LIMIT && m.maxFrames > 0 && a.hasBody
    requires |Flatten(source)| <= m.maxBytes && Admits(a, |Flatten(source)|)
    requires EmptyRunsBelow(source, 0, m.maxFrames)
    ensures Encode([], source, m, 0, 0, 0).Some?
       <==> Decode(Render(Pieces(source, m.maxData)) + Frame(3, []), 0, false, a, [], m.maxFrames).end.Accepted?
  {
    var ps := Pieces(source, m.maxData);
    PiecesFlatten(source, m.maxData);
    assert Split([], m.maxData) + ps == ps;
    EncodeIs([], source, m, 0, 0, 0);
    BodyPrints([], ps, 3, []);
    assert [] + (Render(ps) + Frame(3, [])) == Render(ps) + Frame(3, []);
    DecodeBody(Render(ps) + Frame(3, []), 0, ps, a, [], m.maxFrames);
  }

  // ----- the converse, for any bytes -----

  /** The data frames `ps` stand in the stream from `pos`. */
  ghost predicate DataAt(b: Bytes, pos: nat, ps: seq<Bytes>)
    decreases |ps|
  {
    ps == [] || (FrameAt(b, pos, 2, ps[0]) && DataAt(b, pos + 5 + |ps[0]|, ps[1..]))
  }

  /** The position behind them. */
  function Behind(pos: nat, ps: seq<Bytes>): nat
    decreases |ps|
  {
    if ps == [] then pos else Behind(pos + 5 + |ps[0]|, ps[1..])
  }

  predicate WithinFrames(ps: seq<Bytes>) {
    forall i :: 0 <= i < |ps| ==> |ps[i]| <= FRAME_LIMIT
  }

  predicate WithinLength(a: Accept, total: nat) {
    a.bodyLength.Some? ==> total <= a.bodyLength.value
  }

  /** A data frame header at `q` that takes the body over the limit. */
  ghost predicate Overflows(b: Bytes, q: nat, a: Accept, count: nat) {
    q + 5 <= |b| && b[q] == 2 && LengthAt(b, q) <= FRAME_LIMIT && count + LengthAt(b, q) > a.limit
  }

  /** What the bytes have to do with a decoder result: the frames it read, and why it stopped. */
  ghost predicate ReadFrames(b: Bytes, pos: nat, broken: bool, a: Accept, d: Decoded, turns: nat, ps: seq<Bytes>) {
    && DataAt(b, pos, ps) && WithinFrames(ps) && |ps| <= turns
    && (d.end == Accepted ==> BodyAt(b, pos, ps, 3, []) && |ps| < turns && !broken)
    && (d.end == Refused(BodyTooLarge) ==>
          a.hasBody && |ps| < turns && Overflows(b, Behind(pos, ps), a, |d.forwarded|))
  }

  ghost predicate Forwards(a: Accept, sent: Bytes, d: Decoded, ps: seq<Bytes>) {
    && d.forwarded == sent + Flatten(ps)
    && (ps != [] ==> a.hasBody && |d.forwarded| <= a.limit && WithinLength(a, |d.forwarded|))
    && (d.end == Accepted && a.bodyLength.Some? ==> |d.forwarded| == a.bodyLength.value)
  }

  lemma ReadOneMore(b: Bytes, pos: nat, broken: bool, a: Accept, d: Decoded, turns: nat, p: Bytes, qs: seq<Bytes>,
                    next: nat)
    requires turns > 0 && next == pos + 5 + |p| && ReadFrames(b, next, broken, a, d, turns - 1, qs)
    requires FrameAt(b, pos, 2, p) && |p| <= FRAME_LIMIT
    ensures ReadFrames(b, pos, broken, a, d, turns, [p] + qs)
  {
    var ps := [p] + qs;
    assert ps[0] == p && ps[1..] == qs;
  }

  lemma ForwardOneMore(a: Accept, sent: Bytes, d: Decoded, p: Bytes, qs: seq<Bytes>)
    requires Forwards(a, sent + p, d, qs) && a.hasBody && |sent| + |p| <= a.limit && WithinLength(a, |sent| + |p|)
    ensures Forwards(a, sent, d, [p] + qs)
  {
    var ps := [p] + qs;
    assert ps[0] == p && ps[1..] == qs;
    FlattenFirst(ps);
    Assoc(sent, p, Flatten(qs));
  }

  /**
   Whatever the bytes, the decoder forwards the payloads of the data frames it read, within every
   limit; it accepts only a well-formed upload of admissible length with nothing behind it; and it
   answers that the body is too large only at a frame that makes it so.
   */
  lemma {:induction false} DecodeMeans(b: Bytes, pos: nat, broken: bool, a: Accept, sent: Bytes, turns: nat)
    returns (ps: seq<Bytes>)
    ensures ReadFrames(b, pos, broken, a, Decode(b, pos, broken, a, sent, turns), turns, ps)
    ensures Forwards(a, sent, Decode(b, pos, broken, a, sent, turns), ps)
    decreases turns
  {
    ps := [];
    assert sent + [] == sent;
    if turns > 0 {
      match Parse(b, pos, broken, a, |sent|)
      case Final(end) =>
      case Payload(p) =>
        var next := pos + 5 + |p|;
        var d := Decode(b, next, broken, a, sent + p, turns - 1);
        assert Decode(b, pos, broken, a, sent, turns) == d;
        var qs := DecodeMeans(b, next, broken, a, sent + p, turns - 1);
        ReadOneMore(b, pos, broken, a, d, turns, p, qs, next);
        ForwardOneMore(a, sent, d, p, qs);
        ps := [p] + qs;
    }
  }

  /** An accepted upload, from the first byte of its body: exactly the frames of an admissible body. */
  lemma AcceptedMeansWellFormed(b: Bytes, pos: nat, broken: bool, a: Accept, turns: nat) returns (ps: seq<Bytes>)
    requires Decode(b, pos, broken, a, [], turns).end.Accepted?
    ensures BodyAt(b, pos, ps, 3, []) && WithinFrames(ps) && |ps| < turns && !broken && (ps != [] ==> a.hasBody)
    ensures Decode(b, pos, broken, a, [], turns).forwarded == Flatten(ps) && Admits(a, |Flatten(ps)|)
  {
    ps := DecodeMeans(b, pos, broken, a, [], turns);
    assert [] + Flatten(ps) == Flatten(ps);
    if ps == [] { assert Flatten(ps) == []; }
  }

  /** Accepted or not, no more than the limit is ever forwarded. */
  lemma NeverForwardsTooMuch(b: Bytes, pos: nat, broken: bool, a: Accept, turns: nat)
    ensures |Decode(b, pos, broken, a, [], turns).forwarded| <= a.limit
  {
    var ps := DecodeMeans(b, pos, broken, a, [], turns);
    if ps == [] { assert Flatten(ps) == []; }
  }

  /** And where a frame overflows an otherwise admissible body, that is the answer. */
  lemma {:induction false} OverflowIsTooLarge(b: Bytes, pos: nat, broken: bool, ps: seq<Bytes>, a: Accept, sent: Bytes,
                                              turns: nat)
    requires DataAt(b, pos, ps) && WithinFrames(ps) && |ps| < turns && a.hasBody
    requires |sent| + |Flatten(ps)| <= a.limit && WithinLength(a, |sent| + |Flatten(ps)|)
    requires Overflows(b, Behind(pos, ps), a, |sent| + |Flatten(ps)|)
    ensures Decode(b, pos, broken, a, sent, turns) == Decoded(sent + Flatten(ps), Refused(BodyTooLarge))
    decreases |ps|
  {
    if ps == [] {
      assert sent + [] == sent;
    } else {
      FlattenFirst(ps);
      var next := pos + 5 + |ps[0]|;
      assert Parse(b, pos, broken, a, |sent|) == Payload(ps[0]);
      OverflowIsTooLarge(b, next, broken, ps[1..], a, sent + ps[0], turns - 1);
      Assoc(sent, ps[0], Flatten(ps[1..]));
    }
  }

  /** The metadata of an upload is exactly a non-empty, bounded first frame. */
  lemma MetadataMeans(b: Bytes, payload: Bytes)
    ensures DecodeMetadata(b) == Some(payload) <==> FrameAt(b, 0, 1, payload) && 0 < |payload| <= FRAME_LIMIT
  {
  }
}
