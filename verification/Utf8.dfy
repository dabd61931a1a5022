/** Incremental UTF-8 to UTF-16 decoding of process output: model of `decodeChunk`,
    pi/packages/tui/src/autocomplete.ts. */
module Utf8 {

  type Byte = x: int | 0 <= x < 0x100
  type Unit = x: int | 0 <= x < 0x1_0000
  /** A Unicode scalar value: what UTF-8 encodes (section 3 of RFC 3629). */
  type Scalar = x: int | 0 <= x < 0xd800 || 0xe000 <= x < 0x11_0000

  /** Section 3 of RFC 3629. */
  function Utf8Of(c: Scalar): (s: seq<Byte>)
    ensures 1 <= |s| <= 4
  {
    if c < 0x80 then [c]
    else if c < 0x800 then [0xc0 + c / 0x40, 0x80 + c % 0x40]
    else if c < 0x1_0000 then [0xe0 + c / 0x1000, 0x80 + c / 0x40 % 0x40, 0x80 + c % 0x40]
    else [0xf0 + c / 0x4_0000, 0x80 + c / 0x1000 % 0x40, 0x80 + c / 0x40 % 0x40, 0x80 + c % 0x40]
  }

  /** Section 2.1 of RFC 2781. */
  function Utf16Of(c: Scalar): seq<Unit> {
    if c < 0x1_0000 then [c]
    else [0xd800 + (c - 0x1_0000) / 0x400, 0xdc00 + (c - 0x1_0000) % 0x400]
  }

  function Utf8Text(text: seq<Scalar>): seq<Byte> {
    if text == [] then [] else Utf8Of(text[0]) + Utf8Text(text[1..])
  }

  function Utf16Text(text: seq<Scalar>): seq<Unit> {
    if text == [] then [] else Utf16Of(text[0]) + Utf16Text(text[1..])
  }

  // ----- The decoder's two scans, as functions of the bytes they look at.

  /** The length of the sequence that a lead byte announces. */
  function Expected(lead: Byte): nat {
    if lead >= 0xf0 then 4 else if lead >= 0xe0 then 3 else 2
  }

  /** The two bits under the mask 0xc0 are those of 0x80. */
  predicate IsContinuation(b: Byte) {
    0x80 <= b < 0xc0
  }

  /** How many bytes at the end of `p` belong to a sequence that is not complete yet: looks back over at most
      three bytes, from the `back`-th last on. */
  function TailFrom(p: seq<Byte>, back: nat): (tail: nat)
    requires 1 <= back
    ensures tail <= 3 && tail <= |p|
    decreases 4 - back
  {
    if back > 3 || back > |p| then 0
    else
      var b := p[|p| - back];
      if b >= 0xc0 then (if back < Expected(b) then back else 0)
      else if !IsContinuation(b) then 0
      else TailFrom(p, back + 1)
  }

  /** The byte at `i`, or zero past the end. */
  function At(s: seq<Byte>, i: nat): Byte {
    if i < |s| then s[i] else 0
  }

  /** The code point that the bytes at `i` are read as, and how far that moves. */
  function Decode1(s: seq<Byte>, i: nat): (int, nat)
    requires i < |s|
  {
    var b0 := s[i];
    if b0 < 0x80 then (b0, 1)
    else if 0xc0 <= b0 < 0xe0 then (b0 % 0x20 * 0x40 + At(s, i + 1) % 0x40, 2)
    else if 0xe0 <= b0 < 0xf0 then (b0 % 0x10 * 0x1000 + At(s, i + 1) % 0x40 * 0x40 + At(s, i + 2) % 0x40, 3)
    else (b0 % 8 * 0x4_0000 + At(s, i + 1) % 0x40 * 0x1000 + At(s, i + 2) % 0x40 * 0x40 + At(s, i + 3) % 0x40, 4)
  }

  lemma Decode1Range(s: seq<Byte>, i: nat)
    requires i < |s|
    ensures 0 <= Decode1(s, i).0 < 0x20_0000 && 1 <= Decode1(s, i).1 <= 4
  {
  }

  function Units(codepoint: int): seq<Unit>
    requires 0 <= codepoint < 0x20_0000
  {
    if codepoint < 0x1_0000 then [codepoint]
    else [0xd800 + (codepoint - 0x1_0000) / 0x400, 0xdc00 + (codepoint - 0x1_0000) % 0x400]
  }

  function DecodeFrom(s: seq<Byte>, i: nat): seq<Unit>
    decreases |s| - i
  {
    if i >= |s| then []
    else
      Decode1Range(s, i);
      Units(Decode1(s, i).0) + DecodeFrom(s, i + Decode1(s, i).1)
  }

  /** One call of decodeChunk on `(pendingBytes, stdout)`. */
  function DecodeStep(pending: seq<Byte>, chunk: seq<Byte>): (r: (seq<Byte>, seq<Unit>)) {
    var p := pending + chunk;
    var completeCount := |p| - TailFrom(p, 1);
    (p[completeCount..], DecodeFrom(p[..completeCount], 0))
  }

  lemma Appended(out: seq<Unit>, units: seq<Unit>, rest: seq<Unit>)
    ensures (out + units) + rest == out + (units + rest)
  {
  }

  class ChunkDecoder {
    var pendingBytes: seq<Byte>
    var stdout: seq<Unit>

    constructor ()
      ensures pendingBytes == [] && stdout == []
    {
      pendingBytes := [];
      stdout := [];
    }

    static method FindTail(p: seq<Byte>) returns (tail: nat)
      ensures tail == TailFrom(p, 1)
    {
      tail := 0;
      var back := 1;
      while back <= 3 && back <= |p|
        invariant 1 <= back <= 4 && tail == 0
        invariant TailFrom(p, 1) == TailFrom(p, back)
        decreases 4 - back
      {
        var b := p[|p| - back];
        if b >= 0xc0 {
          tail := if back < Expected(b) then back else 0;
          break;
        }
        if !IsContinuation(b) {
          tail := 0;
          break;
        }
        back := back + 1;
      }
    }

    method DecodeChunk(chunk: seq<Byte>)
      modifies this
      ensures pendingBytes == DecodeStep(old(pendingBytes), chunk).0
      ensures stdout == old(stdout) + DecodeStep(old(pendingBytes), chunk).1
    {
      hide TailFrom, DecodeFrom;
      pendingBytes := pendingBytes + chunk;
      var tail := FindTail(pendingBytes);
      var completeCount := |pendingBytes| - tail;
      if completeCount <= 0 {
        NothingComplete(pendingBytes, stdout);
        return;
      }
      var complete := pendingBytes[..completeCount];
      pendingBytes := pendingBytes[completeCount..];
      var out := DecodeComplete(complete);
      stdout := stdout + out;
    }

    static lemma NothingComplete(p: seq<Byte>, out: seq<Unit>)
      ensures p[0..] == p && p[..0] == [] && out + DecodeFrom(p[..0], 0) == out
    {
    }

    static method DecodeComplete(complete: seq<Byte>) returns (out: seq<Unit>)
      ensures out == DecodeFrom(complete, 0)
    {
      hide Decode1, Units;
      out := [];
      var i := 0;
      while i < |complete|
        invariant out + DecodeFrom(complete, i) == DecodeFrom(complete, 0)
        decreases |complete| - i
      {
        var (codepoint, length) := Decode1(complete, i);
        Decode1Range(complete, i);
        var units := FromCodePoint(codepoint);
        Appended(out, units, DecodeFrom(complete, i + length));
        out := out + units;
        i := i + length;
      }
    }

    static method FromCodePoint(codepoint: nat) returns (units: seq<Unit>)
      requires codepoint < 0x20_0000
      ensures units == Units(codepoint)
    {
      if codepoint < 0x1_0000 {
        units := [codepoint];
      } else {
        var offset := codepoint - 0x1_0000;
        units := [0xd800 + offset / 0x400, 0xdc00 + offset % 0x400];
      }
    }
  }

  // ----- Valid text

  /** A complete encoded scalar decodes to itself, whatever follows. */
  lemma DecodesScalar(c: Scalar, more: seq<Byte>)
    ensures Decode1(Utf8Of(c) + more, 0) == (c, |Utf8Of(c)|)
  {
    var s := Utf8Of(c) + more;
    assert forall i | 0 <= i < |Utf8Of(c)| :: s[i] == Utf8Of(c)[i];
    Digits(c);
    if c < 0x80 {
    } else if c < 0x800 {
      LowBits(c / 0x40, c % 0x40);
    } else if c < 0x1_0000 {
      LowBits(c / 0x1000, c / 0x40 % 0x40);
      LowBits(0, c % 0x40);
    } else {
      LowBits(c / 0x4_0000, c / 0x1000 % 0x40);
      LowBits(c / 0x40 % 0x40, c % 0x40);
    }
  }

  /** What masking leaves of lead and continuation bytes. */
  lemma LowBits(lead: nat, low: nat)
    requires low < 0x40
    ensures (0x80 + low) % 0x40 == low
    ensures lead < 0x40 ==> (0x80 + lead) % 0x40 == lead
    ensures lead < 0x20 ==> (0xc0 + lead) % 0x20 == lead
    ensures lead < 0x10 ==> (0xe0 + lead) % 0x10 == lead
    ensures lead < 8 ==> (0xf0 + lead) % 8 == lead
  {
  }

  lemma Digits(c: nat)
    ensures c == c / 0x1000 * 0x1000 + c / 0x40 % 0x40 * 0x40 + c % 0x40
    ensures c / 0x1000 == c / 0x4_0000 * 0x40 + c / 0x1000 % 0x40
  {
    assert c / 0x40 == c / 0x1000 * 0x40 + c / 0x40 % 0x40;
  }

  lemma {:induction false} DecodeShift(a: seq<Byte>, b: seq<Byte>, i: nat)
    requires i <= |b|
    ensures DecodeFrom(a + b, |a| + i) == DecodeFrom(b, i)
    decreases |b| - i
  {
    hide Units;
    if i < |b| {
      assert Decode1(a + b, |a| + i) == Decode1(b, i);
      Decode1Range(b, i);
      var n := Decode1(b, i).1;
      if i + n <= |b| {
        DecodeShift(a, b, i + n);
      }
    }
  }

  lemma {:induction false} DecodesText(text: seq<Scalar>)
    ensures DecodeFrom(Utf8Text(text), 0) == Utf16Text(text)
  {
    hide Utf8Of, Decode1;
    if text != [] {
      var first, rest := Utf8Of(text[0]), Utf8Text(text[1..]);
      DecodesScalar(text[0], rest);
      DecodeShift(first, rest, 0);
      DecodesText(text[1..]);
    }
  }

  /** `part` is the beginning of an encoded scalar, possibly nothing, but not all of it. */
  ghost predicate Unfinished(part: seq<Byte>, c: Scalar) {
    |part| < |Utf8Of(c)| && part == Utf8Of(c)[..|part|]
  }

  /** The backward scan finds exactly the unfinished scalar at the end of valid text. */
  lemma TailIsUnfinished(whole: seq<Byte>, part: seq<Byte>, c: Scalar)
    requires part != [] && Unfinished(part, c)
    ensures TailFrom(whole + part, 1) == |part|
  {
    var p := whole + part;
    assert p[|p| - |part|] == Utf8Of(c)[0];
    assert |part| >= 2 ==> p[|p| - |part| + 1] == Utf8Of(c)[1];
    assert |part| >= 3 ==> p[|p| - |part| + 2] == Utf8Of(c)[2];
    assert TailFrom(p, |part|) == |part|;
    if |part| == 3 {
      assert TailFrom(p, 2) == TailFrom(p, 3);
    }
  }

  lemma TailAfterScalar(whole: seq<Byte>, c: Scalar)
    ensures TailFrom(whole + Utf8Of(c), 1) == 0
  {
    var p, u := whole + Utf8Of(c), Utf8Of(c);
    assert p[|p| - 1] == u[|u| - 1];
    if |u| >= 2 {
      assert p[|p| - 2] == u[|u| - 2];
      assert TailFrom(p, 1) == TailFrom(p, 2);
    }
    if |u| >= 3 {
      assert p[|p| - 3] == u[|u| - 3];
      assert TailFrom(p, 2) == TailFrom(p, 3);
    }
    if |u| == 4 {
      assert TailFrom(p, 3) == TailFrom(p, 4);
    }
  }

  lemma {:induction false} Utf8Concat(a: seq<Scalar>, b: seq<Scalar>)
    ensures Utf8Text(a + b) == Utf8Text(a) + Utf8Text(b)
  {
    hide Utf8Of;
    if a == [] {
      assert a + b == b;
    } else {
      Utf8Concat(a[1..], b);
      assert (a + b)[1..] == a[1..] + b;
    }
  }

  lemma Utf8Single(c: Scalar)
    ensures Utf8Text([c]) == Utf8Of(c)
  {
    hide Utf8Of;
    assert [c][1..] == [];
    assert Utf8Of(c) + [] == Utf8Of(c);
  }

  lemma TextEndsInScalar(text: seq<Scalar>)
    requires text != []
    ensures Utf8Text(text) == Utf8Text(text[..|text| - 1]) + Utf8Of(text[|text| - 1])
  {
    hide Utf8Of, Utf8Text;
    var n := |text| - 1;
    assert text == text[..n] + [text[n]];
    Utf8Concat(text[..n], [text[n]]);
    Utf8Single(text[n]);
  }

  lemma TailOfText(text: seq<Scalar>)
    ensures TailFrom(Utf8Text(text), 1) == 0
  {
    hide Utf8Of;
    if text != [] {
      TextEndsInScalar(text);
      TailAfterScalar(Utf8Text(text[..|text| - 1]), text[|text| - 1]);
    }
  }

  lemma Associative(a: seq<Byte>, b: seq<Byte>, c: seq<Byte>)
    ensures a + (b + c) == a + b + c
  {
  }

  lemma Cut(first: seq<Byte>, rest: seq<Byte>, s: seq<Byte>, more: seq<Byte>)
    requires s + more == first + rest && |first| <= |s|
    ensures s == first + s[|first|..]
    ensures s[|first|..] + more == rest
  {
    assert s[..|first|] == (s + more)[..|first|] == first;
    assert s[|first|..] + more == (s + more)[|first|..] == rest;
  }

  lemma StartOfFirst(first: seq<Byte>, rest: seq<Byte>, s: seq<Byte>, more: seq<Byte>)
    requires s + more == first + rest && |s| < |first|
    ensures s == first[..|s|]
  {
    assert s == (s + more)[..|s|] == (first + rest)[..|s|];
  }

  lemma TextPrefix(text: seq<Scalar>, k: nat)
    requires 1 <= k <= |text|
    ensures Utf8Text(text[..k]) == Utf8Of(text[0]) + Utf8Text(text[1..][..k - 1])
    ensures text[1..][k - 1..] == text[k..]
    ensures k < |text| ==> text[1..][k - 1] == text[k]
  {
    hide Utf8Of;
    assert text[..k][1..] == text[1..][..k - 1];
  }

  /** Any prefix of encoded text is the encoding of its first `k` scalars and an unfinished one. */
  lemma {:induction false} SplitPrefix(text: seq<Scalar>, s: seq<Byte>, more: seq<Byte>) returns (k: nat, part: seq<Byte>)
    requires s + more == Utf8Text(text)
    ensures k <= |text| && s == Utf8Text(text[..k]) + part
    ensures part + more == Utf8Text(text[k..])
    ensures if k == |text| then part == [] else Unfinished(part, text[k])
  {
    hide Utf8Of;
    if text == [] {
      k, part := 0, [];
    } else {
      var first, rest := Utf8Of(text[0]), Utf8Text(text[1..]);
      if |s| < |first| {
        k, part := 0, s;
        StartOfFirst(first, rest, s, more);
        assert text[..0] == [] && text[0..] == text && s == [] + s;
      } else {
        Cut(first, rest, s, more);
        var k1;
        k1, part := SplitPrefix(text[1..], s[|first|..], more);
        k := k1 + 1;
        TextPrefix(text, k);
        Associative(first, Utf8Text(text[1..][..k1]), part);
      }
    }
  }

  function Join(chunks: seq<seq<Byte>>): seq<Byte> {
    if chunks == [] then [] else chunks[0] + Join(chunks[1..])
  }

  /** Successive calls of decodeChunk. */
  function DecodeChunks(pending: seq<Byte>, stdout: seq<Unit>, chunks: seq<seq<Byte>>): (seq<Byte>, seq<Unit>)
    decreases |chunks|
  {
    if chunks == [] then (pending, stdout)
    else
      var (p, out) := DecodeStep(pending, chunks[0]);
      DecodeChunks(p, stdout + out, chunks[1..])
  }

  /** A call on the next bytes of valid text decodes every scalar they complete and keeps the rest pending. */
  lemma StepOnText(text: seq<Scalar>, pending: seq<Byte>, chunk: seq<Byte>, more: seq<Byte>) returns (k: nat)
    requires pending + chunk + more == Utf8Text(text)
    ensures k <= |text|
    ensures DecodeStep(pending, chunk).1 == Utf16Text(text[..k])
    ensures DecodeStep(pending, chunk).0 + more == Utf8Text(text[k..])
    ensures k == |text| ==> DecodeStep(pending, chunk).0 == []
    ensures k < |text| ==> Unfinished(DecodeStep(pending, chunk).0, text[k])
  {
    hide Utf8Of, Utf16Of, DecodeFrom;
    var p := pending + chunk;
    var part;
    k, part := SplitPrefix(text, p, more);
    var whole := Utf8Text(text[..k]);
    if part == [] {
      TailOfText(text[..k]);
      assert p == whole;
    } else {
      TailIsUnfinished(whole, part, text[k]);
    }
    assert p[..|p| - |part|] == whole && p[|p| - |part|..] == part;
    DecodesText(text[..k]);
  }

  lemma {:induction false} Utf16Concat(a: seq<Scalar>, b: seq<Scalar>)
    ensures Utf16Text(a + b) == Utf16Text(a) + Utf16Text(b)
  {
    hide Utf16Of;
    if a == [] {
      assert a + b == b;
    } else {
      Utf16Concat(a[1..], b);
      assert (a + b)[1..] == a[1..] + b;
    }
  }

  lemma TextContinues(text: seq<Scalar>, k: nat, stdout: seq<Unit>)
    requires k <= |text|
    ensures stdout + Utf16Text(text[..k]) + Utf16Text(text[k..]) == stdout + Utf16Text(text)
  {
    hide Utf16Text;
    assert text[..k] + text[k..] == text;
    Utf16Concat(text[..k], text[k..]);
    Appended(stdout, Utf16Text(text[..k]), Utf16Text(text[k..]));
  }

  lemma {:induction false} DecodesPending(text: seq<Scalar>, pending: seq<Byte>, stdout: seq<Unit>, chunks: seq<seq<Byte>>)
    requires pending + Join(chunks) == Utf8Text(text)
    requires chunks == [] ==> text == []
    ensures DecodeChunks(pending, stdout, chunks) == ([], stdout + Utf16Text(text))
    decreases |chunks|
  {
    hide Utf8Of, Utf16Of, DecodeStep;
    if chunks == [] {
      assert stdout + [] == stdout;
    } else {
      var more := Join(chunks[1..]);
      assert pending + chunks[0] + more == pending + Join(chunks);
      var k := StepOnText(text, pending, chunks[0], more);
      var (p, out) := DecodeStep(pending, chunks[0]);
      if chunks[1..] == [] {
        assert p + more == p;
        AllIsNoStart(text[k..], p);
      }
      DecodesPending(text[k..], p, stdout + out, chunks[1..]);
      TextContinues(text, k, stdout);
    }
  }

  /** What is all of a text is not an unfinished part of its first character. */
  lemma AllIsNoStart(text: seq<Scalar>, part: seq<Byte>)
    requires part == Utf8Text(text) && (text != [] ==> Unfinished(part, text[0]))
    ensures text == []
  {
    hide Utf8Of;
  }

  /** Valid UTF-8, cut at any byte positions, accumulates the UTF-16 form of the text it encodes, and leaves
      nothing pending. */
  lemma DecodesAnySplit(text: seq<Scalar>, chunks: seq<seq<Byte>>)
    requires Join(chunks) == Utf8Text(text)
    ensures DecodeChunks([], [], chunks) == ([], Utf16Text(text))
  {
    hide Utf8Of, Utf16Of, DecodeStep;
    assert [] + Join(chunks) == Join(chunks);
    if chunks == [] {
      AllIsNoStart(text, []);
    }
    DecodesPending(text, [], [], chunks);
    assert [] + Utf16Text(text) == Utf16Text(text);
  }

  /** A decoder that is given the chunks of a stream, one call after the other: if the stream is the encoding of `text`, it
      ends with the UTF-16 form of the text and nothing pending, wherever the stream was cut. */
  method DecodeStream(chunks: seq<seq<Byte>>, ghost text: seq<Scalar>) returns (stdout: seq<Unit>, pending: seq<Byte>)
    ensures (pending, stdout) == DecodeChunks([], [], chunks)
    ensures Join(chunks) == Utf8Text(text) ==> stdout == Utf16Text(text) && pending == []
  {
    hide Utf8Text, Utf16Text, DecodeStep, Join;
    var decoder := new ChunkDecoder();
    assert chunks[0..] == chunks;
    for i := 0 to |chunks|
      invariant fresh(decoder)
      invariant DecodeChunks(decoder.pendingBytes, decoder.stdout, chunks[i..]) == DecodeChunks([], [], chunks)
    {
      assert chunks[i..][0] == chunks[i] && chunks[i..][1..] == chunks[i + 1..];
      decoder.DecodeChunk(chunks[i]);
    }
    assert chunks[|chunks|..] == [];
    stdout, pending := decoder.stdout, decoder.pendingBytes;
    if Join(chunks) == Utf8Text(text) {
      DecodesAnySplit(text, chunks);
    }
  }
}
