/** Length-prefixed frames: what a byte stream means, independently of how it is cut into chunks.
    Model of pi/packages/protocol/src/framing.ts. */
module Framing {

  type Byte = x: int | 0 <= x < 256
  type Bytes = seq<Byte>

  const FRAME_HEADER_LENGTH: nat := 4
  const MAX_UINT32: nat := 0xffff_ffff

  /** The unsigned 32-bit big-endian prefix. */
  function Prefix(n: nat): (h: Bytes)
    requires n <= MAX_UINT32
    ensures |h| == FRAME_HEADER_LENGTH
  {
    [n / 0x100_0000, n / 0x1_0000 % 0x100, n / 0x100 % 0x100, n % 0x100]
  }

  function DeclaredLength(h: Bytes): (n: nat)
    requires |h| == FRAME_HEADER_LENGTH
    ensures n <= MAX_UINT32
  {
    h[0] as int * 0x100_0000 + h[1] as int * 0x1_0000 + h[2] as int * 0x100 + h[3] as int
  }

  lemma PrefixDeclares(n: nat)
    requires n <= MAX_UINT32
    ensures DeclaredLength(Prefix(n)) == n
  {
    var a, b := n / 0x100, n / 0x1_0000;
    assert n == a * 0x100 + n % 0x100;
    assert a == b * 0x100 + a % 0x100;
    assert b == n / 0x100_0000 * 0x100 + b % 0x100;
  }

  lemma DeclaresPrefix(h: Bytes)
    requires |h| == FRAME_HEADER_LENGTH
    ensures Prefix(DeclaredLength(h)) == h
  {
    var n := DeclaredLength(h);
    var b: int := h[0] as int * 0x100 + h[1];
    var a: int := b * 0x100 + h[2];
    assert n == a * 0x100 + h[3] && n / 0x100 == a && n % 0x100 == h[3];
    assert n / 0x1_0000 == a / 0x100 == b && a % 0x100 == h[2];
    assert n / 0x100_0000 == b / 0x100 == h[0] && b % 0x100 == h[1];
  }

  /** Prefixes are ordered like the lengths they stand for, most significant byte first. */
  lemma PrefixesOrdered(m: nat, n: nat)
    requires m <= MAX_UINT32 && n <= MAX_UINT32
    ensures m < n <==> exists i: nat :: i < FRAME_HEADER_LENGTH && Prefix(m)[..i] == Prefix(n)[..i] && Prefix(m)[i] < Prefix(n)[i]
  {
    var (g, h) := (Prefix(m), Prefix(n));
    PrefixDeclares(m);
    PrefixDeclares(n);
    hide Prefix;
    if i: nat :| i < FRAME_HEADER_LENGTH && g[..i] == h[..i] && g[i] < h[i] {
      assert forall j :: 0 <= j < i ==> g[j] == g[..i][j] == h[..i][j] == h[j];
    }
    if m < n {
      var i := FirstDifference(g, h);
      assert g[i] < h[i];
    }
  }

  lemma FirstDifference(g: Bytes, h: Bytes) returns (i: nat)
    requires |g| == |h| == FRAME_HEADER_LENGTH && DeclaredLength(g) != DeclaredLength(h)
    ensures i < FRAME_HEADER_LENGTH && g[..i] == h[..i] && g[i] != h[i]
  {
    i := 0;
    while i < FRAME_HEADER_LENGTH && g[i] == h[i]
      invariant i <= FRAME_HEADER_LENGTH && g[..i] == h[..i]
    {
      i := i + 1;
    }
  }

  function Frame(payload: Bytes): Bytes
    requires |payload| <= MAX_UINT32
  {
    Prefix(|payload|) + payload
  }

  /** What a whole stream holds: its frames in order and the bytes of an unfinished frame,
      or the frames before the first declared length over the limit. */
  datatype Parsed =
    | Parsed(frames: seq<Bytes>, rest: Bytes)
    | Oversized(frames: seq<Bytes>)

  function Prepend(frames: seq<Bytes>, p: Parsed): Parsed {
    match p
    case Parsed(more, rest) => Parsed(frames + more, rest)
    case Oversized(more) => Oversized(frames + more)
  }

  function Parse(s: Bytes, max: nat): Parsed
    decreases |s|
  {
    if |s| < FRAME_HEADER_LENGTH then Parsed([], s)
    else
      var n := DeclaredLength(s[..FRAME_HEADER_LENGTH]);
      if n > max then Oversized([])
      else if |s| < FRAME_HEADER_LENGTH + n then Parsed([], s)
      else
        var end := FRAME_HEADER_LENGTH + n;
        Prepend([s[FRAME_HEADER_LENGTH..end]], Parse(s[end..], max))
  }

  lemma PrependTwice(a: seq<Bytes>, b: seq<Bytes>, p: Parsed)
    ensures Prepend(a, Prepend(b, p)) == Prepend(a + b, p)
    ensures Prepend([], p) == p
  {
    assert a + (b + p.frames) == (a + b) + p.frames;
    assert [] + p.frames == p.frames;
  }

  lemma ParseFrame(n: nat, payload: Bytes, more: Bytes, max: nat)
    requires |payload| == n <= max && n <= MAX_UINT32
    ensures Parse(Prefix(n) + payload + more, max) == Prepend([payload], Parse(more, max))
  {
    hide DeclaredLength, Prefix;
    var s := Prefix(n) + payload + more;
    PrefixDeclares(n);
    assert s[..FRAME_HEADER_LENGTH] == Prefix(n);
    assert s[FRAME_HEADER_LENGTH..FRAME_HEADER_LENGTH + n] == payload;
    assert s[FRAME_HEADER_LENGTH + n..] == more;
  }

  lemma ParsePartialFrame(n: nat, payload: Bytes, max: nat)
    requires |payload| < n <= max && n <= MAX_UINT32
    ensures Parse(Prefix(n) + payload, max) == Parsed([], Prefix(n) + payload)
  {
    hide DeclaredLength, Prefix;
    var s := Prefix(n) + payload;
    PrefixDeclares(n);
    assert s[..FRAME_HEADER_LENGTH] == Prefix(n);
  }

  lemma ParseOversized(h: Bytes, more: Bytes, max: nat)
    requires |h| == FRAME_HEADER_LENGTH && DeclaredLength(h) > max
    ensures Parse(h + more, max) == Oversized([])
  {
    hide DeclaredLength;
    assert (h + more)[..FRAME_HEADER_LENGTH] == h;
  }

  /** Stopping after any prefix and resuming with what was left over changes nothing. */
  lemma {:induction false} ParseResumes(a: Bytes, b: Bytes, max: nat)
    ensures Parse(a, max).Parsed? ==>
              Parse(a + b, max) == Prepend(Parse(a, max).frames, Parse(Parse(a, max).rest + b, max))
    ensures Parse(a, max).Oversized? ==> Parse(a + b, max) == Parse(a, max)
    decreases |a|
  {
    hide DeclaredLength;
    if |a| < FRAME_HEADER_LENGTH {
      PrependTwice([], [], Parse(a + b, max));
    } else {
      var h := a[..FRAME_HEADER_LENGTH];
      var n := DeclaredLength(h);
      assert (a + b)[..FRAME_HEADER_LENGTH] == h;
      if n <= max {
        if |a| < FRAME_HEADER_LENGTH + n {
          PrependTwice([], [], Parse(a + b, max));
        } else {
          var end := FRAME_HEADER_LENGTH + n;
          ParseResumes(a[end..], b, max);
          assert (a + b)[end..] == a[end..] + b;
          assert (a + b)[FRAME_HEADER_LENGTH..end] == a[FRAME_HEADER_LENGTH..end];
          var tail := Parse(a[end..], max);
          if tail.Parsed? {
            PrependTwice([a[FRAME_HEADER_LENGTH..end]], tail.frames, Parse(tail.rest + b, max));
          }
        }
      }
    }
  }

  /** A stream, cut into the chunks `chunks`. */
  function Join(chunks: seq<Bytes>): Bytes {
    if chunks == [] then [] else chunks[0] + Join(chunks[1..])
  }

  predicate AllWithin(payloads: seq<Bytes>, max: nat) {
    payloads == [] || (|payloads[0]| <= max && AllWithin(payloads[1..], max))
  }

  lemma {:induction false} WithinMonotone(payloads: seq<Bytes>, max: nat, more: nat)
    requires AllWithin(payloads, max) && max <= more
    ensures AllWithin(payloads, more)
  {
    if payloads != [] {
      WithinMonotone(payloads[1..], max, more);
    }
  }

  function FrameAll(payloads: seq<Bytes>): Bytes
    requires AllWithin(payloads, MAX_UINT32)
  {
    if payloads == [] then [] else Frame(payloads[0]) + FrameAll(payloads[1..])
  }

  /** Encoding any payloads within the limit and parsing the stream gives the payloads back. */
  lemma {:induction false} RoundTrip(payloads: seq<Bytes>, max: nat)
    requires max <= MAX_UINT32 && AllWithin(payloads, max)
    ensures AllWithin(payloads, MAX_UINT32)
    ensures Parse(FrameAll(payloads), max) == Parsed(payloads, [])
  {
    hide DeclaredLength, Prefix;
    WithinMonotone(payloads, max, MAX_UINT32);
    if payloads != [] {
      RoundTrip(payloads[1..], max);
      ParseFrame(|payloads[0]|, payloads[0], FrameAll(payloads[1..]), max);
      assert [payloads[0]] + payloads[1..] == payloads;
    }
  }

  lemma ParseStep(s: Bytes, max: nat) returns (end: nat)
    requires max <= MAX_UINT32 && |s| >= FRAME_HEADER_LENGTH && Parse(s, max).Parsed?
    requires |s| >= FRAME_HEADER_LENGTH + DeclaredLength(s[..FRAME_HEADER_LENGTH])
    ensures FRAME_HEADER_LENGTH <= end <= |s| && end - FRAME_HEADER_LENGTH <= max
    ensures s[..end] == Frame(s[FRAME_HEADER_LENGTH..end])
    ensures Parse(s, max) == Prepend([s[FRAME_HEADER_LENGTH..end]], Parse(s[end..], max))
  {
    hide DeclaredLength, Prefix;
    var h := s[..FRAME_HEADER_LENGTH];
    end := FRAME_HEADER_LENGTH + DeclaredLength(h);
    DeclaresPrefix(h);
    assert s[..end] == h + s[FRAME_HEADER_LENGTH..end];
  }

  /** Conversely, a stream that parses is exactly the encoding of its frames followed by what is
      left over, so a whole-frame stream has one reading only. */
  lemma {:induction false} ParseInverse(s: Bytes, max: nat)
    requires max <= MAX_UINT32 && Parse(s, max).Parsed?
    ensures AllWithin(Parse(s, max).frames, max) && AllWithin(Parse(s, max).frames, MAX_UINT32)
    ensures s == FrameAll(Parse(s, max).frames) + Parse(s, max).rest
    decreases |s|
  {
    hide DeclaredLength, Prefix;
    if |s| >= FRAME_HEADER_LENGTH && |s| >= FRAME_HEADER_LENGTH + DeclaredLength(s[..FRAME_HEADER_LENGTH]) {
      var end := ParseStep(s, max);
      ParseInverse(s[end..], max);
      var p, t := Parse(s, max), Parse(s[end..], max);
      hide Parse;
      var f := s[FRAME_HEADER_LENGTH..end];
      assert p.frames == [f] + t.frames && p.frames[0] == f && p.frames[1..] == t.frames && p.rest == t.rest;
      hide Frame;
      calc {
        s;
        s[..end] + s[end..];
        Frame(f) + (FrameAll(t.frames) + t.rest);
        (Frame(f) + FrameAll(t.frames)) + t.rest;
        FrameAll(p.frames) + p.rest;
      }
    }
  }
}
