/** The incremental decoder: fixed header buffer, payload collected in blocks of at most 64 KiB. */
module FrameDecoding {
  import opened Framing
  import opened Options

  const PAYLOAD_BLOCK_SIZE: nat := 0x1_0000

  datatype FrameError = Ended | Failed | TooLong(length: nat, limit: nat) | Truncated | NoPrefix | NotOneFrame
  datatype Result<+T> = Ok(value: T) | Err(error: FrameError)

  datatype DecoderState = Open | AtEnd | Broken

  function Min(a: nat, b: nat): nat {
    if a <= b then a else b
  }

  ghost function Flatten(blocks: seq<array<Byte>>): Bytes
    reads blocks
  {
    if blocks == [] then [] else Flatten(blocks[..|blocks| - 1]) + blocks[|blocks| - 1][..]
  }

  function Capacity(blocks: seq<array<Byte>>): nat {
    if blocks == [] then 0 else Capacity(blocks[..|blocks| - 1]) + blocks[|blocks| - 1].Length
  }

  ghost predicate Distinct(blocks: seq<array<Byte>>) {
    forall i, j :: 0 <= i < j < |blocks| ==> blocks[i] != blocks[j]
  }

  lemma {:induction false} FlattenLength(blocks: seq<array<Byte>>)
    ensures |Flatten(blocks)| == Capacity(blocks)
  {
    if blocks != [] {
      FlattenLength(blocks[..|blocks| - 1]);
    }
  }

  lemma {:induction false} CapacityMonotone(blocks: seq<array<Byte>>, n: nat)
    requires n <= |blocks|
    ensures Capacity(blocks[..n]) <= Capacity(blocks)
  {
    if n < |blocks| {
      CapacityMonotone(blocks[..|blocks| - 1], n);
      assert blocks[..|blocks| - 1][..n] == blocks[..n];
    } else {
      assert blocks[..n] == blocks;
    }
  }

  lemma LastIsNew(blocks: seq<array<Byte>>)
    requires blocks != [] && Distinct(blocks)
    ensures blocks[|blocks| - 1] !in blocks[..|blocks| - 1]
  {
  }

  lemma TakeMore(s: Bytes, used: nat, bytes: Bytes)
    requires used + |bytes| <= |s| && s[used..used + |bytes|] == bytes
    ensures s[..used + |bytes|] == s[..used] + bytes
  {
  }

  lemma Joined(a: Bytes, b: Bytes, c: Bytes)
    ensures a + (b + c) == a + b + c
  {
  }

  lemma SliceMore(before: Bytes, s: Bytes, i: nat, j: nat, k: nat)
    requires i <= j <= k <= |s|
    ensures before + s[i..j] + s[j..k] == before + s[i..k]
  {
  }

  /** encodeFrame: a fresh frame; the length bytes are what a byte array keeps of shifted lengths. */
  method EncodeFrame(payload: Bytes) returns (r: Result<array<Byte>>)
    ensures r.Ok? <==> |payload| <= MAX_UINT32
    ensures r.Ok? ==> fresh(r.value) && r.value[..] == Frame(payload)
  {
    if |payload| > MAX_UINT32 {
      return Err(TooLong(|payload|, MAX_UINT32));
    }
    var length := |payload|;
    var frame := new Byte[FRAME_HEADER_LENGTH + length](_ => 0);
    frame[0] := length / 0x100_0000;
    frame[1] := length / 0x1_0000 % 0x100;
    frame[2] := length / 0x100 % 0x100;
    frame[3] := length % 0x100;
    SetBytes(frame, FRAME_HEADER_LENGTH, payload);
    assert frame[..] == frame[..FRAME_HEADER_LENGTH] + payload;
    return Ok(frame);
  }

  /** TypedArray.set: copies `bytes` into `target` from `offset` on, touching nothing else. */
  method SetBytes(target: array<Byte>, offset: nat, bytes: Bytes)
    requires offset + |bytes| <= target.Length
    modifies target
    ensures target[..offset] == old(target[..offset])
    ensures target[offset..offset + |bytes|] == bytes
    ensures target[offset + |bytes|..] == old(target[offset + |bytes|..])
  {
    forall i | 0 <= i < |bytes| {
      target[offset + i] := bytes[i];
    }
  }

  /** assertCompleteFrame: accepts exactly the encodings of one payload within the limit. */
  method AssertCompleteFrame(frame: Bytes, maxFrameLength: nat) returns (r: Result<()>)
    requires maxFrameLength <= MAX_UINT32
    ensures r.Ok? <==> exists payload: Bytes :: |payload| <= maxFrameLength && frame == Frame(payload)
    ensures r.Err? && r.error.NoPrefix? <==> |frame| < FRAME_HEADER_LENGTH
    ensures r.Err? && r.error.TooLong? <==>
              |frame| >= FRAME_HEADER_LENGTH && DeclaredLength(frame[..FRAME_HEADER_LENGTH]) > maxFrameLength
  {
    if |frame| < FRAME_HEADER_LENGTH {
      return Err(NoPrefix);
    }
    var length := DeclaredLength(frame[..FRAME_HEADER_LENGTH]);
    assert forall payload: Bytes :: |payload| <= maxFrameLength && frame == Frame(payload) ==> length == |payload| by {
      forall payload: Bytes | |payload| <= maxFrameLength && frame == Frame(payload)
        ensures length == |payload|
      {
        assert frame[..FRAME_HEADER_LENGTH] == Prefix(|payload|);
        PrefixDeclares(|payload|);
      }
    }
    if length > maxFrameLength {
      return Err(TooLong(length, maxFrameLength));
    }
    if |frame| != FRAME_HEADER_LENGTH + length {
      return Err(NotOneFrame);
    }
    DeclaresPrefix(frame[..FRAME_HEADER_LENGTH]);
    assert frame == Frame(frame[FRAME_HEADER_LENGTH..]);
    r := Ok(());
  }

  /** What successive pushes of `chunks` return together, starting from `pending` unreturned bytes: the frames
      of all pushes and the bytes still pending, or a break at the first push that meets an oversized length,
      with the frames of the pushes before it. */
  function Feed(pending: Bytes, chunks: seq<Bytes>, max: nat): Parsed
    decreases |chunks|
  {
    if chunks == [] then Parsed([], pending)
    else
      match Parse(pending + chunks[0], max)
      case Parsed(frames, rest) => Prepend(frames, Feed(rest, chunks[1..], max))
      case Oversized(_) => Oversized([])
  }

  /** However a stream is cut up, pushing the pieces gives the one-shot parse of the stream, and breaks
      exactly when the stream has an oversized length. */
  lemma {:induction false} FeedIsParse(pending: Bytes, chunks: seq<Bytes>, max: nat)
    requires Parse(pending, max) == Parsed([], pending)
    ensures Feed(pending, chunks, max).Oversized? <==> Parse(pending + Join(chunks), max).Oversized?
    ensures Feed(pending, chunks, max).Parsed? ==> Feed(pending, chunks, max) == Parse(pending + Join(chunks), max)
    decreases |chunks|
  {
    hide Parse;
    if chunks == [] {
      assert pending + [] == pending;
    } else {
      var first, later := pending + chunks[0], Join(chunks[1..]);
      assert pending + Join(chunks) == first + later;
      ParseResumes(first, later, max);
      var p := Parse(first, max);
      if p.Parsed? {
        RestIsUnfinished(first, max);
        FeedIsParse(p.rest, chunks[1..], max);
      }
    }
  }

  lemma {:induction false} RestIsUnfinished(s: Bytes, max: nat)
    requires Parse(s, max).Parsed?
    ensures Parse(Parse(s, max).rest, max) == Parsed([], Parse(s, max).rest)
    decreases |s|
  {
    if |s| >= FRAME_HEADER_LENGTH && |s| >= FRAME_HEADER_LENGTH + DeclaredLength(s[..FRAME_HEADER_LENGTH]) {
      RestIsUnfinished(s[FRAME_HEADER_LENGTH + DeclaredLength(s[..FRAME_HEADER_LENGTH])..], max);
    }
  }

  /** Two ways of cutting the same stream break together and otherwise return the same. */
  lemma ChunkingIndependence(a: seq<Bytes>, b: seq<Bytes>, max: nat)
    requires Join(a) == Join(b)
    ensures Feed([], a, max).Oversized? <==> Feed([], b, max).Oversized?
    ensures Feed([], a, max).Parsed? ==> Feed([], a, max) == Feed([], b, max)
  {
    FeedIsParse([], a, max);
    FeedIsParse([], b, max);
    assert [] + Join(a) == Join(a);
  }

  /** Encoded payloads within the limit, cut up in any way, decode to exactly the payloads; and any chunks that
      decode with nothing pending, so that `end` succeeds, are the encoding of what they decode to. */
  lemma DecodesEncodings(payloads: seq<Bytes>, chunks: seq<Bytes>, max: nat)
    requires max <= MAX_UINT32
    ensures AllWithin(payloads, max) ==> AllWithin(payloads, MAX_UINT32)
    ensures AllWithin(payloads, max) && Join(chunks) == FrameAll(payloads)
       <==> Feed([], chunks, max) == Parsed(payloads, [])
  {
    FeedIsParse([], chunks, max);
    assert [] + Join(chunks) == Join(chunks);
    if AllWithin(payloads, max) {
      RoundTrip(payloads, max);
    }
    if Parse(Join(chunks), max) == Parsed(payloads, []) {
      ParseInverse(Join(chunks), max);
      assert FrameAll(payloads) + [] == FrameAll(payloads);
    }
  }

  class FrameDecoder {
    const header: array<Byte>
    const maxFrameLength: nat
    var headerLength: nat
    var payloadBlocks: seq<array<Byte>>
    var currentPayloadBlockLength: nat
    var expectedPayloadLength: Option<nat>
    var payloadLength: nat
    var state: DecoderState

    /** A declared length was read and its payload is not complete yet, or has just become complete. */
    ghost predicate Collecting()
      reads this, header
    {
      && header.Length == FRAME_HEADER_LENGTH
      && header !in payloadBlocks && Distinct(payloadBlocks)
      && headerLength == 0 && state == Open && maxFrameLength <= MAX_UINT32
      && expectedPayloadLength.Some? && 0 < expectedPayloadLength.value <= maxFrameLength
      && payloadLength <= expectedPayloadLength.value
      && BlocksValid()
    }

    ghost function Blocks(): set<object>
      reads this
    {
      set b | b in payloadBlocks :: b as object
    }

    ghost predicate Valid()
      reads this, header, payloadBlocks
    {
      && header.Length == FRAME_HEADER_LENGTH
      && header !in payloadBlocks
      && Distinct(payloadBlocks)
      && headerLength < FRAME_HEADER_LENGTH
      && maxFrameLength <= MAX_UINT32
      && (expectedPayloadLength.None? ==> payloadBlocks == [] && payloadLength == 0)
      && (expectedPayloadLength.Some? ==> Collecting() && payloadLength < expectedPayloadLength.value)
    }

    /** All blocks are full except the last, which holds `currentPayloadBlockLength` bytes; block sizes are
        the largest allowed by the block size and the declared length. */
    ghost predicate BlocksValid()
      reads this
    {
      && (payloadBlocks == [] ==> payloadLength == 0)
      && (payloadBlocks != [] ==>
            var last := payloadBlocks[|payloadBlocks| - 1];
            var before := Capacity(payloadBlocks[..|payloadBlocks| - 1]);
            && 0 < currentPayloadBlockLength <= last.Length <= PAYLOAD_BLOCK_SIZE
            && payloadLength == before + currentPayloadBlockLength
            && expectedPayloadLength.Some?
            && before + last.Length <= expectedPayloadLength.value)
    }

    ghost function Payload(): Bytes
      requires payloadBlocks != [] ==> currentPayloadBlockLength <= payloadBlocks[|payloadBlocks| - 1].Length
      reads this, payloadBlocks
    {
      if payloadBlocks == [] then []
      else Flatten(payloadBlocks[..|payloadBlocks| - 1]) + payloadBlocks[|payloadBlocks| - 1][..currentPayloadBlockLength]
    }

    /** The bytes received and not yet returned in a frame. */
    ghost function Pending(): Bytes
      requires Valid()
      reads this, header, payloadBlocks
    {
      match expectedPayloadLength
      case None => header[..headerLength]
      case Some(n) => Prefix(n) + Payload()
    }

    constructor (maxFrameLength: nat)
      requires maxFrameLength <= MAX_UINT32
      ensures Valid() && state == Open && Pending() == [] && this.maxFrameLength == maxFrameLength
      ensures fresh(header) && payloadBlocks == []
    {
      header := new Byte[FRAME_HEADER_LENGTH](_ => 0);
      this.maxFrameLength := maxFrameLength;
      headerLength := 0;
      payloadBlocks := [];
      currentPayloadBlockLength := 0;
      expectedPayloadLength := None;
      payloadLength := 0;
      state := Open;
    }

    /** Memory bound while a payload is incomplete: never more than was declared, and never more than
        one block (less a byte) beyond what was received. */
    lemma CapacityBound()
      requires Valid() && expectedPayloadLength.Some?
      ensures Capacity(payloadBlocks) <= expectedPayloadLength.value
      ensures Capacity(payloadBlocks) <= |Payload()| + (PAYLOAD_BLOCK_SIZE - 1)
      ensures |Payload()| == payloadLength
    {
      if payloadBlocks != [] {
        FlattenLength(payloadBlocks[..|payloadBlocks| - 1]);
      }
    }

    /** An unfinished frame parses to nothing: what is pending is never a whole frame. */
    lemma PendingIsUnfinished()
      requires Valid()
      ensures Parse(Pending(), maxFrameLength) == Parsed([], Pending())
    {
      if expectedPayloadLength.Some? {
        CapacityBound();
        ParsePartialFrame(expectedPayloadLength.value, Payload(), maxFrameLength);
      }
    }

    /** The header part of one turn of push's outer loop: moves bytes of `chunk` into the header buffer. */
    method TakeHeader(chunk: Bytes, offset: nat) returns (headerBytes: nat)
      requires Valid() && expectedPayloadLength.None? && offset < |chunk|
      modifies this`headerLength, header
      ensures 0 < headerBytes && offset + headerBytes <= |chunk|
      ensures headerLength == old(headerLength) + headerBytes <= FRAME_HEADER_LENGTH
      ensures header[..headerLength] == old(header[..headerLength]) + chunk[offset..offset + headerBytes]
      ensures headerLength < FRAME_HEADER_LENGTH ==> offset + headerBytes == |chunk|
    {
      headerBytes := Min(FRAME_HEADER_LENGTH - headerLength, |chunk| - offset);
      SetBytes(header, headerLength, chunk[offset..offset + headerBytes]);
      headerLength := headerLength + headerBytes;
      assert header[..headerLength] == header[..old(headerLength)] + header[old(headerLength)..headerLength];
    }

    method AddBlock(size: nat) returns (block: array<Byte>)
      requires header !in payloadBlocks && Distinct(payloadBlocks)
      modifies this`payloadBlocks
      ensures fresh(block) && block.Length == size && payloadBlocks == old(payloadBlocks) + [block]
      ensures header !in payloadBlocks && Distinct(payloadBlocks)
      ensures fresh(Blocks() - old(Blocks()))
    {
      block := new Byte[size](_ => 0);
      payloadBlocks := payloadBlocks + [block];
    }

    /** When there is no block, or the last one is full, the payload so far is all of the blocks. */
    lemma FullBlocks()
      requires Collecting()
      requires payloadBlocks == [] || currentPayloadBlockLength == payloadBlocks[|payloadBlocks| - 1].Length
      ensures Payload() == Flatten(payloadBlocks) && payloadLength == Capacity(payloadBlocks)
    {
    }

    /** Opens the next payload block when there is none or the last one is full. */
    method OpenBlock() returns (used: nat, block: array<Byte>)
      requires Collecting() && payloadLength < expectedPayloadLength.value
      modifies this`payloadBlocks
      ensures payloadBlocks != [] && block == payloadBlocks[|payloadBlocks| - 1]
      ensures header !in payloadBlocks && Distinct(payloadBlocks)
      ensures fresh(Blocks() - old(Blocks())) && (fresh(block) || block in old(Blocks()))
      ensures used < block.Length <= PAYLOAD_BLOCK_SIZE
      ensures payloadLength == Capacity(payloadBlocks[..|payloadBlocks| - 1]) + used
      ensures Capacity(payloadBlocks[..|payloadBlocks| - 1]) + block.Length <= expectedPayloadLength.value
      ensures old(Payload()) == Flatten(payloadBlocks[..|payloadBlocks| - 1]) + block[..used]
    {
      hide Flatten, Capacity;
      if payloadBlocks == [] || currentPayloadBlockLength == payloadBlocks[|payloadBlocks| - 1].Length {
        FullBlocks();
        ghost var before := payloadBlocks;
        block := AddBlock(Min(PAYLOAD_BLOCK_SIZE, expectedPayloadLength.value - payloadLength));
        used := 0;
        assert payloadBlocks[..|payloadBlocks| - 1] == before;
        assert Flatten(before) + block[..0] == Flatten(before);
      } else {
        block := payloadBlocks[|payloadBlocks| - 1];
        assert block in payloadBlocks;
        used := currentPayloadBlockLength;
      }
    }

    /** Writes received bytes behind the `used` bytes of the last block. */
    method FillBlock(used: nat, bytes: Bytes)
      requires payloadBlocks != [] && Distinct(payloadBlocks)
      requires used + |bytes| <= payloadBlocks[|payloadBlocks| - 1].Length
      modifies payloadBlocks[|payloadBlocks| - 1], `currentPayloadBlockLength, `payloadLength
      ensures currentPayloadBlockLength == used + |bytes|
      ensures payloadLength == old(payloadLength) + |bytes|
      ensures Payload() == old(Flatten(payloadBlocks[..|payloadBlocks| - 1]) + payloadBlocks[|payloadBlocks| - 1][..used]) + bytes
    {
      hide Flatten, Distinct;
      var block := payloadBlocks[|payloadBlocks| - 1];
      LastIsNew(payloadBlocks);
      SetBytes(block, used, bytes);
      TakeMore(block[..], used, bytes);
      currentPayloadBlockLength := used + |bytes|;
      payloadLength := payloadLength + |bytes|;
      Joined(Flatten(payloadBlocks[..|payloadBlocks| - 1]), block[..used], bytes);
    }

    /** One turn of push's inner loop: fills the current block, opening it first when needed. */
    method AppendPayload(chunk: Bytes, offset: nat) returns (payloadBytes: nat)
      requires Collecting() && payloadLength < expectedPayloadLength.value
      requires offset < |chunk|
      modifies this`payloadBlocks, this`currentPayloadBlockLength, this`payloadLength, Blocks()
      ensures Collecting()
      ensures 0 < payloadBytes && offset + payloadBytes <= |chunk|
      ensures Payload() == old(Payload()) + chunk[offset..offset + payloadBytes]
      ensures payloadLength == old(payloadLength) + payloadBytes
      ensures fresh(Blocks() - old(Blocks()))
    {
      var used, block := OpenBlock();
      payloadBytes := Min(block.Length - used, |chunk| - offset);
      FillBlock(used, chunk[offset..offset + payloadBytes]);
    }

    /** push's inner loop: takes payload bytes until the payload is complete or the chunk is used up. */
    method CollectPayload(chunk: Bytes, offset: nat) returns (end: nat)
      requires Collecting() && payloadLength < expectedPayloadLength.value && offset <= |chunk|
      modifies this`payloadBlocks, this`currentPayloadBlockLength, this`payloadLength, Blocks()
      ensures Collecting() && fresh(Blocks() - old(Blocks()))
      ensures offset <= end <= |chunk|
      ensures Payload() == old(Payload()) + chunk[offset..end]
      ensures payloadLength == old(payloadLength) + (end - offset)
      ensures payloadLength == expectedPayloadLength.value || end == |chunk|
    {
      hide Distinct;
      hide Parse, DeclaredLength, Prefix, Flatten, Capacity;
      end := offset;
      while end < |chunk| && payloadLength < expectedPayloadLength.value
        invariant Collecting() && fresh(Blocks() - old(Blocks()))
        invariant offset <= end <= |chunk|
        invariant Payload() == old(Payload()) + chunk[offset..end]
        invariant payloadLength == old(payloadLength) + (end - offset)
      {
        var payloadBytes := AppendPayload(chunk, end);
        SliceMore(old(Payload()), chunk, offset, end, end + payloadBytes);
        end := end + payloadBytes;
      }
    }

    /** Hands out a complete payload: the only block itself, or the blocks copied one behind the other. */
    method CompletePayload() returns (payload: Bytes)
      requires Collecting() && payloadLength == expectedPayloadLength.value
      modifies this`payloadBlocks, this`currentPayloadBlockLength, this`expectedPayloadLength, this`payloadLength
      ensures Valid() && expectedPayloadLength.None? && headerLength == 0
      ensures payload == old(Payload()) && |payload| == old(expectedPayloadLength).value
    {
      WholePayload();
      if |payloadBlocks| == 1 {
        payload := payloadBlocks[0][..];
        assert payloadBlocks[..0] == [];
      } else {
        payload := JoinBlocks();
      }
      payloadBlocks := [];
      currentPayloadBlockLength := 0;
      expectedPayloadLength := None;
      payloadLength := 0;
    }

    lemma WholePayload()
      requires Collecting() && payloadLength == expectedPayloadLength.value
      ensures payloadBlocks != []
      ensures Payload() == Flatten(payloadBlocks) && |Payload()| == payloadLength
      ensures Capacity(payloadBlocks) == expectedPayloadLength.value
    {
      var last := payloadBlocks[|payloadBlocks| - 1];
      assert currentPayloadBlockLength == last.Length && last[..currentPayloadBlockLength] == last[..];
      FlattenLength(payloadBlocks);
    }

    method JoinBlocks() returns (joined: Bytes)
      requires Collecting() && Capacity(payloadBlocks) == expectedPayloadLength.value
      ensures joined == Flatten(payloadBlocks)
    {
      var payload := new Byte[expectedPayloadLength.value](_ => 0);
      var offset := 0;
      for i := 0 to |payloadBlocks|
        invariant offset == Capacity(payloadBlocks[..i])
        invariant offset <= payload.Length && payload[..offset] == old(Flatten(payloadBlocks[..i]))
      {
        var block := payloadBlocks[i];
        assert payloadBlocks[..i + 1][..i] == payloadBlocks[..i];
        CapacityMonotone(payloadBlocks, i + 1);
        SetBytes(payload, offset, block[..]);
        assert payload[..offset + block.Length] == payload[..offset] + old(block[..]);
        offset := offset + block.Length;
      }
      assert payloadBlocks[..|payloadBlocks|] == payloadBlocks;
      joined := payload[..];
    }

    /** fail: the decoder is broken for good and holds nothing. */
    method Fail()
      requires header.Length == FRAME_HEADER_LENGTH && header !in payloadBlocks && maxFrameLength <= MAX_UINT32
      modifies this`state, this`headerLength, this`payloadBlocks, this`currentPayloadBlockLength,
               this`expectedPayloadLength, this`payloadLength
      ensures Valid() && state == Broken && Pending() == [] && payloadBlocks == []
    {
      state := Broken;
      headerLength := 0;
      payloadBlocks := [];
      currentPayloadBlockLength := 0;
      expectedPayloadLength := None;
      payloadLength := 0;
    }

    /** The header part of push: reads header bytes and, once there are four, acts on the declared length.
        `found` is an empty frame that is complete with its header. */
    method BeginFrame(chunk: Bytes, offset: nat) returns (end: nat, found: Result<seq<Bytes>>)
      requires Valid() && state == Open && expectedPayloadLength.None? && offset < |chunk|
      modifies this`state, this`headerLength, this`payloadBlocks, this`currentPayloadBlockLength,
               this`expectedPayloadLength, this`payloadLength, header
      ensures Valid() && offset < end <= |chunk| && payloadBlocks == []
      ensures found.Err? ==> state == Broken && Pending() == []
      ensures found.Err? ==> Parse(old(Pending()) + chunk[offset..], maxFrameLength) == Oversized([])
      ensures found.Ok? ==> state == Open
      ensures found.Ok? ==>
                Parse(old(Pending()) + chunk[offset..], maxFrameLength)
                == Prepend(found.value, Parse(Pending() + chunk[end..], maxFrameLength))
    {
      hide Prefix, Parse, DeclaredLength, Flatten, Capacity;
      var headerBytes := TakeHeader(chunk, offset);
      end := offset + headerBytes;
      ghost var rest := chunk[end..];
      ghost var seen := header[..headerLength];
      assert old(Pending()) + chunk[offset..] == seen + rest by {
        assert chunk[offset..] == chunk[offset..end] + rest;
      }
      PrependTwice([], [], Parse(seen + rest, maxFrameLength));
      if headerLength < FRAME_HEADER_LENGTH {
        return end, Ok([]);
      }
      var frameLength := DeclaredLength(header[..]);
      assert header[..] == seen;
      headerLength := 0;
      if frameLength > maxFrameLength {
        ParseOversized(seen, rest, maxFrameLength);
        Fail();
        return end, Err(TooLong(frameLength, maxFrameLength));
      }
      DeclaresPrefix(seen);
      if frameLength == 0 {
        ParseFrame(0, [], rest, maxFrameLength);
        assert seen + rest == Prefix(0) + [] + rest && Pending() == [] && Pending() + rest == rest;
        return end, Ok([[]]);
      }
      expectedPayloadLength := Some(frameLength);
      payloadBlocks := [];
      currentPayloadBlockLength := 0;
      payloadLength := 0;
      assert Pending() == Prefix(frameLength) + [] == seen;
      found := Ok([]);
    }

    /** The payload part of push: collects bytes and hands out the frame they complete, if any. */
    method ContinueFrame(chunk: Bytes, offset: nat) returns (end: nat, found: seq<Bytes>)
      requires Valid() && state == Open && expectedPayloadLength.Some? && offset <= |chunk|
      modifies this`payloadBlocks, this`currentPayloadBlockLength, this`expectedPayloadLength,
               this`payloadLength, Blocks()
      ensures Valid() && state == Open && fresh(Blocks() - old(Blocks()))
      ensures offset <= end <= |chunk| && (expectedPayloadLength.Some? ==> end == |chunk|)
      ensures offset < |chunk| ==> offset < end
      ensures Parse(old(Pending()) + chunk[offset..], maxFrameLength)
           == Prepend(found, Parse(Pending() + chunk[end..], maxFrameLength))
    {
      hide Parse, DeclaredLength, Prefix;
      var n := expectedPayloadLength.value;
      ghost var was := Payload();
      end := CollectPayload(chunk, offset);
      ghost var rest := chunk[end..];
      SplitChunk(n, was, chunk, offset, end);
      if payloadLength == n {
        var frame := CompletePayload();
        ParseFrame(n, frame, rest, maxFrameLength);
        assert Pending() == [] && Pending() + rest == rest;
        found := [frame];
      } else {
        PrependTwice([], [], Parse(Pending() + rest, maxFrameLength));
        found := [];
      }
    }

    static lemma SplitChunk(n: nat, payload: Bytes, chunk: Bytes, offset: nat, end: nat)
      requires n <= MAX_UINT32 && offset <= end <= |chunk|
      ensures Prefix(n) + payload + chunk[offset..] == Prefix(n) + (payload + chunk[offset..end]) + chunk[end..]
    {
      assert chunk[offset..] == chunk[offset..end] + chunk[end..];
    }

    /** One turn of push's outer loop. */
    method Advance(chunk: Bytes, offset: nat) returns (end: nat, found: Result<seq<Bytes>>)
      requires Valid() && state == Open && offset < |chunk|
      modifies this, header, Blocks()
      ensures Valid() && fresh(Blocks() - old(Blocks()))
      ensures found.Err? ==> state == Broken && Pending() == []
      ensures found.Err? ==> Parse(old(Pending()) + chunk[offset..], maxFrameLength).Oversized?
      ensures found.Ok? ==> state == Open && offset < end <= |chunk|
      ensures found.Ok? ==>
                Parse(old(Pending()) + chunk[offset..], maxFrameLength)
                == Prepend(found.value, Parse(Pending() + chunk[end..], maxFrameLength))
    {
      hide Parse, DeclaredLength, Prefix, Flatten, Capacity, Distinct;
      if expectedPayloadLength.Some? {
        var some;
        end, some := ContinueFrame(chunk, offset);
        return end, Ok(some);
      }
      end, found := BeginFrame(chunk, offset);
      if found.Ok? && expectedPayloadLength.Some? {
        var some;
        var first := found.value;
        end, some := ContinueFrame(chunk, end);
        PrependTwice(first, some, Parse(Pending() + chunk[end..], maxFrameLength));
        found := Ok(first + some);
      }
    }

    /** push: returns the frames that `chunk` completes. Together with the leftover bytes they are what the
        one-shot parse of everything pending says; a declared length over the limit breaks the decoder. */
    method Push(chunk: Bytes) returns (r: Result<seq<Bytes>>)
      requires Valid()
      modifies this, header, Blocks()
      ensures Valid() && fresh(Blocks() - old(Blocks()))
      ensures old(state) != Open ==> r.Err? && state == old(state) && Pending() == old(Pending())
      ensures old(state) == Open ==>
                match Parse(old(Pending()) + chunk, maxFrameLength)
                case Parsed(frames, rest) => r == Ok(frames) && state == Open && Pending() == rest
                case Oversized(_) => r.Err? && state == Broken && Pending() == []
    {
      hide Parse, DeclaredLength, Prefix, Flatten, Capacity, Distinct;
      if state == AtEnd {
        return Err(Ended);
      }
      if state == Broken {
        return Err(Failed);
      }
      ghost var whole := Parse(Pending() + chunk, maxFrameLength);
      var frames: seq<Bytes> := [];
      var offset := 0;
      assert chunk[0..] == chunk;
      PrependTwice([], [], whole);
      while offset < |chunk|
        invariant Valid() && state == Open && fresh(Blocks() - old(Blocks()))
        invariant offset <= |chunk|
        invariant whole == Prepend(frames, Parse(Pending() + chunk[offset..], maxFrameLength))
      {
        var end, found := Advance(chunk, offset);
        if found.Err? {
          return Err(found.error);
        }
        PrependTwice(frames, found.value, Parse(Pending() + chunk[end..], maxFrameLength));
        frames, offset := frames + found.value, end;
      }
      PendingIsUnfinished();
      assert Pending() + chunk[offset..] == Pending() && frames + [] == frames;
      r := Ok(frames);
    }

    /** end: succeeds exactly when no frame is unfinished. */
    method End() returns (r: Result<()>)
      requires Valid()
      modifies this
      ensures Valid() && (old(state) != Open ==> r.Err? && state == old(state) && Pending() == old(Pending()))
      ensures old(state) == Open ==> (r.Ok? <==> old(Pending()) == [])
      ensures old(state) == Open ==> state == (if r.Ok? then AtEnd else Broken)
    {
      if state == AtEnd {
        return Err(Ended);
      }
      if state == Broken {
        return Err(Failed);
      }
      if headerLength != 0 || expectedPayloadLength.Some? {
        Fail();
        return Err(Truncated);
      }
      state := AtEnd;
      r := Ok(());
    }
  }

  /** A stream that arrives in chunks, pushed one after the other and then ended: it decodes to what the one-shot parse
      of the stream says, and fails exactly if that leaves something over or meets an oversized frame. */
  method DecodeStream(chunks: seq<Bytes>, max: nat) returns (r: Result<seq<Bytes>>)
    requires max <= MAX_UINT32
    ensures var p := Parse(Join(chunks), max);
            && (r.Ok? <==> p.Parsed? && p.rest == [])
            && (r.Ok? ==> r.value == p.frames)
  {
    hide Parse;
    var decoder := new FrameDecoder(max);
    var frames: seq<Bytes> := [];
    FeedIsParse([], chunks, max) by {
      decoder.PendingIsUnfinished();
    }
    assert [] + Join(chunks) == Join(chunks) && chunks[0..] == chunks;
    PrependTwice([], [], Feed([], chunks, max));
    for i := 0 to |chunks|
      invariant decoder.Valid() && decoder.state == Open
      invariant fresh(decoder) && fresh(decoder.header) && fresh(decoder.Blocks())
      invariant Feed([], chunks, max) == Prepend(frames, Feed(decoder.Pending(), chunks[i..], max))
    {
      var pushed := decoder.Push(chunks[i]);
      if pushed.Err? {
        return Err(pushed.error);
      }
      PrependTwice(frames, pushed.value, Feed(decoder.Pending(), chunks[i + 1..], max));
      assert chunks[i..][1..] == chunks[i + 1..];
      frames := frames + pushed.value;
    }
    assert chunks[|chunks|..] == [] && frames + [] == frames;
    ghost var rest := decoder.Pending();
    var ended := decoder.End();
    r := if ended.Ok? then Ok(frames) else Err(Truncated);
  }
}
