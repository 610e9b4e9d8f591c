/**
 The response direction: the frames the service emits (src/handlers.rs) and the SDK's reader and
 exchange loop that consume them (packages/typescript/src/protocol.ts, client.ts).
 */
module Response {
  import opened Wrappers
  import opened Framing

  /**
   What the SDK checks in JSON payloads, kept opaque: whether a payload is this exchange's response
   metadata, and the byte count a valid completion payload reports.
   */
  datatype Codec = Codec(meta: Bytes -> bool, complete: Bytes -> Option<nat>)

  datatype Client = Client(codec: Codec, metadataLimit: nat, dataLimit: nat, maximum: nat, bodyless: bool)

  // ----- the SDK's decoder as a function of the bytes -----

  datatype Read = Got(kind: byte, payload: Bytes) | Eof | Bad

  /** `FrameReader.next` with the header at `pos`. */
  function Next(b: Bytes, pos: nat, broken: bool, c: Client): (r: Read)
    ensures r.Got? ==> FrameAt(b, pos, r.kind, r.payload) && r.kind in {1, 2, 3, 4}
                       && |r.payload| <= (if r.kind == 2 then c.dataLimit else c.metadataLimit)
  {
    if |b| <= pos then (if broken then Bad else Eof)
    else if |b| < pos + 5 then Bad
    else
      var n := LengthAt(b, pos);
      if b[pos] !in {1, 2, 3, 4} || n > (if b[pos] == 2 then c.dataLimit else c.metadataLimit) || |b| < pos + 5 + n
      then Bad
      else Got(b[pos], b[pos + 5..pos + 5 + n])
  }

  /** How the exchange settles, with the body bytes handed to the consumer. */
  datatype Settled = Completed(body: Bytes) | Failed(body: Bytes)

  datatype Step = Chunk(payload: Bytes) | Over(ok: bool)

  /** One pull of the response body, with the header at `pos` and `count` bytes delivered. */
  function Pull(b: Bytes, pos: nat, broken: bool, c: Client, count: nat): (step: Step)
    ensures step.Chunk? ==> FrameAt(b, pos, 2, step.payload)
  {
    match Next(b, pos, broken, c)
    case Got(kind, payload) =>
      if kind == 2 then
        if c.bodyless || payload == [] || count + |payload| > c.maximum then Over(false) else Chunk(payload)
      else
        Over(kind == 3 && c.codec.complete(payload) == Some(count) && Next(b, pos + 5 + |payload|, broken, c).Eof?)
    case _ => Over(false)
  }

  /** All pulls from `pos`, after `body` was delivered. */
  function Pulls(b: Bytes, pos: nat, broken: bool, c: Client, body: Bytes): Settled
    decreases |b| - pos
  {
    match Pull(b, pos, broken, c, |body|)
    case Chunk(payload) => Pulls(b, pos + 5 + |payload|, broken, c, body + payload)
    case Over(ok) => if ok then Completed(body) else Failed(body)
  }

  lemma PullsOn(b: Bytes, pos: nat, broken: bool, c: Client, body: Bytes, payload: Bytes, next: nat)
    requires Pull(b, pos, broken, c, |body|) == Chunk(payload) && next == pos + 5 + |payload|
    ensures Pulls(b, pos, broken, c, body) == Pulls(b, next, broken, c, body + payload)
  {
  }

  /** The exchange from its first frame. */
  function Receive(b: Bytes, broken: bool, c: Client): Settled {
    match Next(b, 0, broken, c)
    case Got(kind, payload) =>
      if kind == 1 && c.codec.meta(payload) then Pulls(b, 5 + |payload|, broken, c, []) else Failed([])
    case _ => Failed([])
  }

  // ----- the SDK's reader over arbitrarily cut input -----

  datatype Piece = Whole(bytes: Bytes) | End | Broke

  class FrameReader {
    const client: Client
    var chunk: Bytes
    var offset: nat
    var stream: seq<Item>

    constructor (body: seq<Item>, client: Client)
      ensures Valid() && Rest() == Delivered(body) && Broken() == Breaks(body) && this.client == client
    {
      this.client := client;
      chunk, offset, stream := [], 0, body;
    }

    predicate Valid()
      reads this
    {
      offset <= |chunk|
    }

    /** Everything that can still be read. */
    function Rest(): Bytes
      reads this
      requires Valid()
    {
      chunk[offset..] + Delivered(stream)
    }

    predicate Broken()
      reads this
    {
      Breaks(stream)
    }

    /** Replaces a used-up chunk by the next one; reports the end or an error of the stream. */
    method Advance() returns (state: Piece)
      requires Valid() && offset == |chunk|
      modifies this
      ensures Valid()
      ensures state.Whole? ==> Rest() == old(Rest()) && Broken() == old(Broken()) && |stream| < old(|stream|)
      ensures state.End? ==> old(Rest()) == [] && !old(Broken())
      ensures state.Broke? ==> old(Rest()) == [] && old(Broken())
    {
      if stream == [] {
        return End;
      }
      var item := stream[0];
      stream := stream[1..];
      match item {
        case Failure => return Broke;
        case Data(bytes) =>
          chunk, offset := bytes, 0;
          assert chunk[offset..] == bytes;
          return Whole([]);
      }
    }

    method Exact(length: nat, allowEof: bool) returns (piece: Piece)
      requires Valid()
      modifies this
      ensures Valid()
      ensures piece.Whole? <==> |old(Rest())| >= length
      ensures piece.Whole? ==> piece.bytes == old(Rest())[..length] && Rest() == old(Rest())[length..]
                               && Broken() == old(Broken())
      ensures piece.End? <==> allowEof && old(Rest()) == [] && length > 0 && !old(Broken())
    {
      ghost var all, broken := Rest(), Broken();
      var bytes: Bytes := [];
      while |bytes| < length
        invariant Valid() && |bytes| <= length && all == bytes + Rest() && Broken() == broken
        decreases |stream|, length - |bytes|
      {
        if offset == |chunk| {
          var state := Advance();
          if state.Broke? {
            return Broke;
          }
          if state.End? {
            return if allowEof && bytes == [] then End else Broke;
          }
        } else {
          bytes := Copy(bytes, length);
        }
      }
      assert bytes == all[..length] && Rest() == all[length..];
      piece := Whole(bytes);
    }

    /** Moves as many bytes of the current chunk as are wanted and there. */
    method Copy(bytes: Bytes, length: nat) returns (more: Bytes)
      requires Valid() && offset < |chunk| && |bytes| < length
      modifies `offset
      ensures Valid() && |bytes| < |more| <= length && more + Rest() == bytes + old(Rest())
    {
      var want, have := length - |bytes|, |chunk| - offset;
      var count := if want <= have then want else have;
      ghost var later := Delivered(stream);
      assert chunk[offset..] + later == chunk[offset..offset + count] + (chunk[offset + count..] + later);
      Assoc(bytes, chunk[offset..offset + count], chunk[offset + count..] + later);
      more := bytes + chunk[offset..offset + count];
      offset := offset + count;
    }

    method NextFrame(ghost b: Bytes, ghost pos: nat) returns (read: Read)
      requires Valid() && pos <= |b| && Rest() == b[pos..]
      modifies this
      ensures Valid() && read == Next(b, pos, old(Broken()), client)
      ensures read.Got? ==> Rest() == b[pos + 5 + |read.payload|..] && Broken() == old(Broken())
    {
      var header := Exact(5, true);
      if header.End? {
        return Eof;
      }
      if header.Broke? {
        return Bad;
      }
      ghost var h := header.bytes;
      assert h[0] == b[pos] && h[1] == b[pos + 1] && h[2] == b[pos + 2] && h[3] == b[pos + 3] && h[4] == b[pos + 4];
      assert b[pos..][5..] == b[pos + 5..];
      var kind, length := header.bytes[0], LengthAt(header.bytes, 0);
      if kind !in {1, 2, 3, 4} || length > (if kind == 2 then client.dataLimit else client.metadataLimit) {
        return Bad;
      }
      var payload := Exact(length, false);
      if !payload.Whole? {
        return Bad;
      }
      assert payload.bytes == b[pos + 5..pos + 5 + length];
      assert b[pos + 5..][length..] == b[pos + 5 + length..];
      read := Got(kind, payload.bytes);
    }

    /** The exchange loop: its outcome depends on the delivered bytes alone, not on how they are cut. */
    method Consume() returns (settled: Settled)
      requires Valid()
      modifies this
      ensures settled == Receive(old(Rest()), old(Broken()), client)
    {
      ghost var b, broken := Rest(), Broken();
      assert b[0..] == b;
      var first := NextFrame(b, 0);
      if !first.Got? || first.kind != 1 || !client.codec.meta(first.payload) {
        return Failed([]);
      }
      settled := PullAll([], b, 5 + |first.payload|);
    }

    method PullOnce(count: nat, ghost b: Bytes, ghost pos: nat) returns (step: Step)
      requires Valid() && pos <= |b| && Rest() == b[pos..]
      modifies this
      ensures Valid() && step == Pull(b, pos, old(Broken()), client, count)
      ensures step.Chunk? ==> Rest() == b[pos + 5 + |step.payload|..] && Broken() == old(Broken())
    {
      var next := NextFrame(b, pos);
      if !next.Got? {
        return Over(false);
      }
      if next.kind == 2 {
        if client.bodyless || next.payload == [] || count + |next.payload| > client.maximum {
          return Over(false);
        }
        return Chunk(next.payload);
      }
      if next.kind != 3 || client.codec.complete(next.payload) != Some(count) {
        return Over(false);
      }
      var last := NextFrame(b, pos + 5 + |next.payload|);
      step := Over(last.Eof?);
    }

    /** A consumer that pulls until the exchange settles. */
    method PullAll(body: Bytes, ghost b: Bytes, ghost pos: nat) returns (settled: Settled)
      requires Valid() && pos <= |b| && Rest() == b[pos..]
      modifies this
      ensures settled == Pulls(b, pos, old(Broken()), client, body)
      decreases |b| - pos
    {
      ghost var broken := Broken();
      var step := PullOnce(|body|, b, pos);
      if step.Over? {
        return if step.ok then Completed(body) else Failed(body);
      }
      ghost var next: nat := pos + 5 + |step.payload|;
      PullsOn(b, pos, broken, client, body, step.payload, next);
      settled := PullAll(body + step.payload, b, next);
    }
  }

  // ----- the service's side -----

  datatype Sent = Finished | TooLarge | Upstream

  /** The bytes a response body held before its stream ended or broke. */
  function Arrived(body: seq<Item>): seq<Bytes> {
    if body == [] || body[0].Failure? then [] else [body[0].bytes] + Arrived(body[1..])
  }

  lemma {:induction false} ArrivedFlattens(body: seq<Item>)
    ensures Flatten(Arrived(body)) == Delivered(body)
  {
    if body != [] && body[0].Data? { ArrivedFlattens(body[1..]); }
  }

  /**
   `transfer`, after the response headers: one metadata frame, then every chunk in data frames of at
   most the frame limit, stopping with an error as soon as the byte count passes the maximum.
   Whatever happens, what was emitted is a metadata frame and whole data frames of a body prefix.
   */
  method Transfer(metadata: Bytes, body: seq<Item>, maximum: nat)
    returns (frames: seq<Bytes>, ghost ps: seq<Bytes>, count: nat, sent: Sent)
    ensures Flatten(frames) == Frame(1, metadata) + Render(ps) && Sized(ps, FRAME_LIMIT)
    ensures Flatten(ps) <= Delivered(body) && |Flatten(ps)| <= maximum
    ensures sent.Finished? <==> |Delivered(body)| <= maximum && !Breaks(body)
    ensures sent.Finished? ==> ps == Pieces(Arrived(body), FRAME_LIMIT) && Flatten(ps) == Delivered(body)
    ensures sent.Finished? ==> count == |Delivered(body)|
  {
    frames := [Frame(1, metadata)];
    ps := [];
    count := 0;
    var i := 0;
    ghost var todo := body;
    while i < |body|
      invariant i <= |body| && todo == body[i..]
      invariant Flatten(frames) == Frame(1, metadata) + Render(ps) && Sized(ps, FRAME_LIMIT)
      invariant Flatten(ps) + Delivered(todo) == Delivered(body) && Breaks(todo) == Breaks(body)
      invariant ps + Pieces(Arrived(todo), FRAME_LIMIT) == Pieces(Arrived(body), FRAME_LIMIT)
      invariant count == |Flatten(ps)| <= maximum
    {
      if body[i].Failure? {
        return frames, ps, count, Upstream;
      }
      var chunk := body[i].bytes;
      count := count + |chunk|;
      if count > maximum {
        return frames, ps, count, TooLarge;
      }
      ghost var qs := Split(chunk, FRAME_LIMIT);
      frames := SendChunk(frames, chunk, metadata, ps);
      SplitFlattens(chunk, FRAME_LIMIT);
      FlattenAppend(ps, qs);
      Assoc(Flatten(ps), chunk, Delivered(todo[1..]));
      assert (ps + qs) + Pieces(Arrived(todo[1..]), FRAME_LIMIT) == ps + Pieces(Arrived(todo), FRAME_LIMIT);
      ps := ps + qs;
      todo := todo[1..];
      i := i + 1;
    }
    assert todo == [];
    assert Flatten(ps) + [] == Flatten(ps) && ps + [] == ps;
    sent := Finished;
  }

  /** One upstream chunk goes out as data frames of at most the frame limit. */
  method SendChunk(before: seq<Bytes>, chunk: Bytes, ghost metadata: Bytes, ghost ps: seq<Bytes>)
    returns (frames: seq<Bytes>)
    requires Flatten(before) == Frame(1, metadata) + Render(ps)
    ensures Flatten(frames) == Frame(1, metadata) + Render(ps + Split(chunk, FRAME_LIMIT))
  {
    frames := before;
    var rest := chunk;
    ghost var done := ps;
    while rest != []
      invariant Flatten(frames) == Frame(1, metadata) + Render(done)
      invariant done + Split(rest, FRAME_LIMIT) == ps + Split(chunk, FRAME_LIMIT)
      decreases |rest|
    {
      var n := if |rest| <= FRAME_LIMIT then |rest| else FRAME_LIMIT;
      var bytes := rest[..n];
      SplitFirst(rest, FRAME_LIMIT, n);
      FlattenLast(frames, Frame(2, bytes));
      RenderAppend(done, [bytes]);
      RenderOne(bytes);
      Assoc(Frame(1, metadata), Render(done), Frame(2, bytes));
      assert (done + [bytes]) + Split(rest[n..], FRAME_LIMIT) == done + Split(rest, FRAME_LIMIT);
      frames := frames + [Frame(2, bytes)];
      done := done + [bytes];
      rest := rest[n..];
    }
    assert done + [] == done;
  }

  lemma RenderOne(p: Bytes)
    ensures Render([p]) == Frame(2, p)
  {
    assert [p][1..] == [];
    assert Frame(2, p) + [] == Frame(2, p);
  }

  // ----- the two ends agree -----

  /** Data frames of a body the client allows, closed by a completion frame, decode to that body. */
  lemma {:induction false} PullsBody(b: Bytes, pos: nat, ps: seq<Bytes>, done: Bytes, c: Client, body: Bytes)
    requires BodyAt(b, pos, ps, 3, done) && Sized(ps, c.dataLimit) && |done| <= c.metadataLimit
    requires |body| + |Flatten(ps)| <= c.maximum && c.codec.complete(done) == Some(|body| + |Flatten(ps)|)
    ensures Pulls(b, pos, false, c, body)
         == if c.bodyless && ps != [] then Failed(body) else Completed(body + Flatten(ps))
    decreases |ps|
  {
    if ps == [] {
      assert Next(b, pos, false, c) == Got(3, done);
      assert Next(b, pos + 5 + |done|, false, c).Eof?;
      assert body + [] == body;
    } else {
      FlattenFirst(ps);
      assert Next(b, pos, false, c) == Got(2, ps[0]);
      if !c.bodyless {
        var next := pos + 5 + |ps[0]|;
        PullsOn(b, pos, false, c, body, ps[0], next);
        PullsBody(b, next, ps[1..], done, c, body + ps[0]);
        Assoc(body, ps[0], Flatten(ps[1..]));
      }
    }
  }

  /** Which responses the service and the SDK take to have no body. */
  predicate ServiceBodyless(head: bool, status: nat) { head || status == 204 || status == 304 }

  predicate ClientBodyless(head: bool, status: nat) { head || status in {204, 205, 304} }

  /** The SDK's end of an exchange with the response limits both ends share. */
  ghost predicate Listens(c: Client, head: bool, status: nat, metadata: Bytes) {
    && c.dataLimit == FRAME_LIMIT && |metadata| <= c.metadataLimit <= FRAME_LIMIT
    && c.codec.meta(metadata) && c.bodyless == ClientBodyless(head, status)
  }

  /** The whole response of a service run over `body`, ended by the frame `last`. */
  ghost function Emitted(metadata: Bytes, ps: seq<Bytes>, last: byte, payload: Bytes): Bytes {
    Frame(1, metadata) + (Render(ps) + Frame(last, payload))
  }

  lemma EmittedParses(b: Bytes, metadata: Bytes, ps: seq<Bytes>, last: byte, payload: Bytes)
    requires b == Emitted(metadata, ps, last, payload) && Sized(ps, FRAME_LIMIT)
    requires |metadata| <= FRAME_LIMIT && |payload| <= FRAME_LIMIT
    ensures FrameAt(b, 0, 1, metadata) && BodyAt(b, 5 + |metadata|, ps, last, payload)
  {
    var rest := Render(ps) + Frame(last, payload);
    assert FrameAt(b, 0, 1, metadata) by {
      FramePrints([], 1, metadata, rest);
      assert [] + Frame(1, metadata) + rest == b;
    }
    BodyPrints(Frame(1, metadata), ps, last, payload);
    assert |Frame(1, metadata)| == 5 + |metadata|;
  }

  /**
   Response agreement: the frames of a whole body and a completion frame that reports its length
   settle at the client as a completion with exactly that body, unless the client classes the
   response bodyless and the body is not empty.  If upstream sends no body where the service expects
   none, that leaves exactly the non-empty 205 responses.
   */
  lemma ResponseAgrees(head: bool, status: nat, metadata: Bytes, ps: seq<Bytes>, done: Bytes, b: Bytes, c: Client)
    requires Listens(c, head, status, metadata) && Sized(ps, FRAME_LIMIT) && |done| <= c.metadataLimit
    requires c.codec.complete(done) == Some(|Flatten(ps)|) && |Flatten(ps)| <= c.maximum
    requires b == Emitted(metadata, ps, 3, done)
    ensures Receive(b, false, c) == Completed(Flatten(ps)) <==> !ClientBodyless(head, status) || Flatten(ps) == []
    ensures Receive(b, false, c) != Completed(Flatten(ps)) ==> Receive(b, false, c) == Failed([])
    ensures (ServiceBodyless(head, status) ==> Flatten(ps) == []) ==>
              (Receive(b, false, c) == Completed(Flatten(ps)) <==> !(!head && status == 205 && Flatten(ps) != []))
  {
    EmittedParses(b, metadata, ps, 3, done);
    ReceivesBody(b, metadata, ps, done, c);
    if ps != [] { FlattenFirst(ps); }
  }

  lemma ReceivesBody(b: Bytes, metadata: Bytes, ps: seq<Bytes>, done: Bytes, c: Client)
    requires FrameAt(b, 0, 1, metadata) && BodyAt(b, 5 + |metadata|, ps, 3, done)
    requires Sized(ps, c.dataLimit) && |metadata| <= c.metadataLimit && |done| <= c.metadataLimit
    requires c.codec.meta(metadata) && c.codec.complete(done) == Some(|Flatten(ps)|) && |Flatten(ps)| <= c.maximum
    ensures Receive(b, false, c) == if c.bodyless && ps != [] then Failed([]) else Completed(Flatten(ps))
  {
    assert Next(b, 0, false, c) == Got(1, metadata);
    PullsBody(b, 5 + |metadata|, ps, done, c, []);
    assert [] + Flatten(ps) == Flatten(ps);
  }

  lemma {:induction false} PullsError(b: Bytes, pos: nat, ps: seq<Bytes>, error: Bytes, c: Client, body: Bytes)
    requires BodyAt(b, pos, ps, 4, error) && Sized(ps, FRAME_LIMIT)
    ensures Pulls(b, pos, false, c, body).Failed? && Pulls(b, pos, false, c, body).body <= body + Flatten(ps)
    decreases |ps|
  {
    if ps != [] {
      var next := pos + 5 + |ps[0]|;
      PullsError(b, next, ps[1..], error, c, body + ps[0]);
      Assoc(body, ps[0], Flatten(ps[1..]));
    }
  }

  /**
   A response that ends with an error frame never completes at the client, wherever the error cut
   it: before the metadata frame, or after any data frames; the client has at most what was sent.
   */
  lemma ErrorNeverCompletes(metadata: Bytes, ps: seq<Bytes>, error: Bytes, c: Client)
    requires |metadata| <= FRAME_LIMIT && Sized(ps, FRAME_LIMIT) && |error| <= FRAME_LIMIT
    ensures Receive(Frame(4, error), false, c) == Failed([])
    ensures var settled := Receive(Emitted(metadata, ps, 4, error), false, c);
            settled.Failed? && settled.body <= Flatten(ps)
  {
    FramePrints([], 4, error, []);
    assert [] + Frame(4, error) + [] == Frame(4, error);
    var b := Emitted(metadata, ps, 4, error);
    EmittedParses(b, metadata, ps, 4, error);
    PullsError(b, 5 + |metadata|, ps, error, c, []);
    assert [] + Flatten(ps) == Flatten(ps);
  }

  lemma {:induction false} PullsWithin(b: Bytes, pos: nat, broken: bool, c: Client, body: Bytes)
    requires |body| <= c.maximum
    ensures |Pulls(b, pos, broken, c, body).body| <= c.maximum
    decreases |b| - pos
  {
    if Pull(b, pos, broken, c, |body|).Chunk? {
      var payload := Pull(b, pos, broken, c, |body|).payload;
      var next := pos + 5 + |payload|;
      PullsOn(b, pos, broken, c, body, payload, next);
      PullsWithin(b, next, broken, c, body + payload);
    }
  }

  /** Whatever arrives, completed or not, the consumer is never handed more than the maximum. */
  lemma NeverDeliversTooMuch(b: Bytes, broken: bool, c: Client)
    ensures |Receive(b, broken, c).body| <= c.maximum
  {
    match Next(b, 0, broken, c)
    case Got(kind, payload) => PullsWithin(b, 5 + |payload|, broken, c, []);
    case _ =>
  }

  // ----- a whole exchange -----

  /** What the service prints at the end: a completion payload for a byte count, and an error payload. */
  datatype Printer = Printer(complete: nat -> Bytes, error: Bytes)

  /** A network that cuts bytes in any way and loses none. */
  ghost predicate Faithful(cut: Bytes -> seq<Item>) {
    forall b :: Delivered(cut(b)) == b && !Breaks(cut(b))
  }

  /**
   The service's transfer, its terminal frame, any network in between and the SDK's reader.  The
   service finishes exactly a whole body within the maximum; a finished run completes at the client
   with the upstream bytes exactly unless the client takes a non-empty response to be bodyless; and
   an unfinished run never completes.
   */
  method RunExchange(head: bool, status: nat, metadata: Bytes, body: seq<Item>, printer: Printer,
                     cut: Bytes -> seq<Item>, c: Client) returns (sent: Sent, settled: Settled)
    requires Listens(c, head, status, metadata) && Faithful(cut)
    requires forall n: nat :: c.codec.complete(printer.complete(n)) == Some(n)
    requires |printer.complete(|Delivered(body)|)| <= c.metadataLimit && |printer.error| <= FRAME_LIMIT
    ensures sent.Finished? <==> |Delivered(body)| <= c.maximum && !Breaks(body)
    ensures sent.Finished? ==>
              (settled == Completed(Delivered(body)) <==> !ClientBodyless(head, status) || Delivered(body) == [])
    ensures settled.Completed? ==> sent.Finished? && settled.body == Delivered(body)
    ensures settled.body <= Delivered(body)
  {
    var frames;
    ghost var ps;
    var count;
    frames, ps, count, sent := Transfer(metadata, body, c.maximum);
    var last: byte, payload := 3, printer.error;
    if sent.Finished? {
      payload := printer.complete(count);
    } else {
      last := 4;
    }
    var b := Flatten(frames) + Frame(last, payload);
    Assoc(Frame(1, metadata), Render(ps), Frame(last, payload));
    assert b == Emitted(metadata, ps, last, payload);
    var reader := new FrameReader(cut(b), c);
    settled := reader.Consume();
    assert settled == Receive(b, false, c);
    if sent.Finished? {
      ResponseAgrees(head, status, metadata, ps, payload, b, c);
    } else {
      ErrorNeverCompletes(metadata, ps, payload, c);
    }
  }

  /** A codec for the example below: any metadata, and a completion payload that is its byte count. */
  function Toy(): Client {
    Client(Codec((m: Bytes) => true, (d: Bytes) => if |d| == 1 then Some(d[0]) else None), FRAME_LIMIT, FRAME_LIMIT, 10,
           ClientBodyless(false, 205))
  }

  /** One byte of body under status 205: the service finishes, and the client fails with nothing. */
  lemma Body205Fails()
    ensures !ServiceBodyless(false, 205) && Delivered([Data([7])]) == [7] && !Breaks([Data([7])]) && 1 <= Toy().maximum
    ensures Receive(Emitted([], Pieces(Arrived([Data([7])]), FRAME_LIMIT), 3, [1]), false, Toy()) == Failed([])
  {
    var body := [Data([7])];
    assert body[1..] == [];
    var ps := Pieces(Arrived(body), FRAME_LIMIT);
    ArrivedFlattens(body);
    PiecesFlatten(Arrived(body), FRAME_LIMIT);
    ResponseAgrees(false, 205, [], ps, [1], Emitted([], ps, 3, [1]), Toy());
  }

  /** What the client accepts from `pos`: non-empty data frames, one completion frame, then nothing. */
  lemma {:induction false} PullsAccepts(b: Bytes, pos: nat, broken: bool, c: Client, body: Bytes)
    returns (ps: seq<Bytes>, done: Bytes)
    requires Pulls(b, pos, broken, c, body).Completed? && |body| <= c.maximum
    ensures BodyAt(b, pos, ps, 3, done) && Sized(ps, c.dataLimit) && !broken
    ensures Pulls(b, pos, broken, c, body) == Completed(body + Flatten(ps))
    ensures c.codec.complete(done) == Some(|body| + |Flatten(ps)|) && |body| + |Flatten(ps)| <= c.maximum
    decreases |b| - pos
  {
    var r := Next(b, pos, broken, c);
    var next := pos + 5 + |r.payload|;
    if Pull(b, pos, broken, c, |body|).Chunk? {
      var qs, d := PullsAccepts(b, next, broken, c, body + r.payload);
      ps, done := [r.payload] + qs, d;
      assert ps[1..] == qs;
      FlattenFirst(ps);
      Assoc(body, r.payload, Flatten(qs));
    } else {
      ps, done := [], r.payload;
      assert body + [] == body;
    }
  }

  /**
   The converse, for any byte stream at all: if the exchange completes, the stream was one metadata
   frame, non-empty data frames whose total is the delivered body, the reported count and within
   the maximum, one completion frame, and then the end of the stream.
   */
  lemma CompletionMeansWellFormed(b: Bytes, broken: bool, c: Client)
      returns (metadata: Bytes, ps: seq<Bytes>, done: Bytes)
    requires Receive(b, broken, c).Completed?
    ensures b == Frame(1, metadata) + (Render(ps) + Frame(3, done)) && !broken
    ensures c.codec.meta(metadata) && Sized(ps, c.dataLimit)
    ensures Receive(b, broken, c) == Completed(Flatten(ps))
    ensures c.codec.complete(done) == Some(|Flatten(ps)|) && |Flatten(ps)| <= c.maximum
  {
    metadata := Next(b, 0, broken, c).payload;
    var pos := 5 + |metadata|;
    ps, done := PullsAccepts(b, pos, broken, c, []);
    assert [] + Flatten(ps) == Flatten(ps);
    Reassemble(b, metadata, ps, done);
  }

  lemma Reassemble(b: Bytes, metadata: Bytes, ps: seq<Bytes>, done: Bytes)
    requires FrameAt(b, 0, 1, metadata) && BodyAt(b, 5 + |metadata|, ps, 3, done)
    ensures b == Frame(1, metadata) + (Render(ps) + Frame(3, done))
  {
    var pos := 5 + |metadata|;
    FrameParses(b, 0, 1, metadata);
    BodyParses(b, pos, ps, 3, done);
    assert b == b[0..pos] + b[pos..];
  }
}
