/**
 The DER writer (client/sentinel-service/src/der.rs), with a strict reader to hold it
 against: definite lengths in their shortest form (sections 8.1.3 and 10.1 of ITU-T X.690),
 two's-complement integers (section 8.3) and object identifiers (section 8.19).
 */
module Der {
  import opened Prelude
  import opened Media
  import Wire

  const INTEGER: byte := 0x02
  const BIT_STRING: byte := 0x03
  const OID: byte := 0x06
  const UTF8_STRING: byte := 0x0C
  const SEQUENCE: byte := 0x30
  const SET: byte := 0x31
  const CONTEXT_0: byte := 0xA0

  /** No length on the machine reaches this. */
  const USIZE_LIMIT := 0x1_0000_0000_0000_0000

  // ------------------------------------------------------ big-endian numbers

  function FromBe(b: Bytes): nat
  {
    if b == [] then 0 else var low: nat := b[|b| - 1]; 256 * FromBe(b[..|b| - 1]) + low
  }

  /** The fewest bytes that hold `n`; none for zero. */
  function Digits(n: nat): (d: Bytes)
    ensures d == [] <==> n == 0
  {
    if n == 0 then [] else Digits(n / 256) + [n % 256]
  }

  /** `n` in exactly `w` bytes. */
  function Be(n: nat, w: nat): (b: Bytes)
    ensures |b| == w
  {
    if w == 0 then [] else Be(n / 256, w - 1) + [n % 256]
  }

  /** Without its leading zeros. */
  function Trimmed(b: Bytes): Bytes { if b != [] && b[0] == 0 then Trimmed(b[1..]) else b }

  predicate Minimal(b: Bytes) { b == [] || b[0] != 0 }

  lemma {:induction false} FromBeOfDigits(n: nat)
    ensures FromBe(Digits(n)) == n && Minimal(Digits(n))
  {
    if n > 0 {
      FromBeOfDigits(n / 256);
      assert Digits(n)[..|Digits(n)| - 1] == Digits(n / 256);
    }
  }

  lemma {:induction false} DigitsOfFromBe(b: Bytes)
    requires Minimal(b)
    ensures Digits(FromBe(b)) == b
  {
    if b != [] {
      var init := b[..|b| - 1];
      DigitsOfFromBe(init);
      Wire.Divided(b[|b| - 1], FromBe(init));
      assert b == init + [b[|b| - 1]];
    }
  }

  lemma {:induction false} TrimmedSnoc(b: Bytes, x: byte)
    ensures Trimmed(b + [x]) == if Trimmed(b) == [] then Trimmed([x]) else Trimmed(b) + [x]
  {
    if b == [] {
      assert b + [x] == [x];
    } else if b[0] == 0 {
      TrimmedSnoc(b[1..], x);
      assert (b + [x])[1..] == b[1..] + [x];
    }
  }

  /** Stripping the zeros of a fixed-width number leaves its shortest form. */
  lemma {:induction false} TrimmedBe(n: nat, w: nat)
    requires n < Wire.Pow256(w)
    ensures Trimmed(Be(n, w)) == Digits(n) && |Digits(n)| <= w
  {
    if w > 0 {
      TrimmedBe(n / 256, w - 1);
      TrimmedSnoc(Be(n / 256, w - 1), n % 256);
      assert n > 0 && n / 256 == 0 ==> Trimmed([n % 256]) == [n % 256] == Digits(n / 256) + [n % 256];
      assert n == 0 ==> Trimmed([n % 256]) == [];
    }
  }

  lemma {:induction false} TrimmedValue(b: Bytes)
    ensures FromBe(Trimmed(b)) == FromBe(b) && Minimal(Trimmed(b)) && |Trimmed(b)| <= |b|
  {
    if b != [] && b[0] == 0 {
      TrimmedValue(b[1..]);
      LeadingZero(b);
    }
  }

  lemma {:induction false} LeadingZero(b: Bytes)
    requires b != [] && b[0] == 0
    ensures FromBe(b[1..]) == FromBe(b)
  {
    if |b| > 1 {
      LeadingZero(b[..|b| - 1]);
      assert b[1..][..|b| - 2] == b[..|b| - 1][1..];
    }
  }

  lemma EightBytes(n: nat)
    requires n < USIZE_LIMIT
    ensures n < Wire.Pow256(8)
  {
    Wire.Widths();
  }

  // ------------------------------------------------------------ tag, length, value

  function Length(n: nat): (l: Bytes)
    ensures l != []
  {
    if n < 0x80 then [n] else [0x80 + |Digits(n)| % 0x80] + Digits(n)
  }

  function Tlv(tag: byte, body: Bytes): (r: Bytes)
    ensures |r| >= 2 + |body|
  {
    [tag] + Length(|body|) + body
  }

  lemma {:induction false} TrimmedIsSuffix(b: Bytes)
    ensures |Trimmed(b)| <= |b| && Trimmed(b) == b[|b| - |Trimmed(b)|..]
  {
    if b != [] && b[0] == 0 {
      TrimmedIsSuffix(b[1..]);
    }
  }

  /** Where the leading zeros end, or `otherwise` when there is nothing else. */
  method FirstNonzero(b: Bytes, otherwise: nat) returns (at: nat)
    ensures at == if Trimmed(b) == [] then otherwise else |b| - |Trimmed(b)|
  {
    at := 0;
    assert b[0..] == b;
    while at < |b| && b[at] == 0
      invariant at <= |b| && Trimmed(b) == Trimmed(b[at..])
    {
      assert b[at..][1..] == b[at + 1..];
      at := at + 1;
    }
    if at == |b| {
      at := otherwise;
    }
  }

  lemma Significant(len: nat)
    requires 0 < len < USIZE_LIMIT
    ensures var b, d := Be(len, 8), Digits(len); Trimmed(b) == d && 0 < |d| <= 8 && d == b[8 - |d|..]
  {
    hide Digits, Be, Trimmed, Wire.Pow256;
    EightBytes(len);
    TrimmedBe(len, 8);
    TrimmedIsSuffix(Be(len, 8));
  }

  method WriteLen(out: Bytes, len: nat) returns (r: Bytes)
    requires len < USIZE_LIMIT
    ensures r == out + Length(len)
  {
    hide Digits, Be, Trimmed;
    if len < 0x80 {
      return out + [len];
    }
    Significant(len);
    var bytes := Be(len, 8);
    var first := FirstNonzero(bytes, |bytes| - 1);
    var significant := bytes[first..];
    assert significant == Digits(len);
    r := out + [0x80 + |significant|];
    assert Length(len) == [0x80 + |significant|] + significant;
    r := r + significant;
  }

  method WriteTlv(tag: byte, body: Bytes) returns (out: Bytes)
    requires |body| < USIZE_LIMIT
    ensures out == Tlv(tag, body)
  {
    hide Length;
    out := [tag];
    out := WriteLen(out, |body|);
    out := out + body;
  }

  // ---------------------------------------------------------------- the reader

  datatype Item = Item(tag: byte, body: Bytes, rest: Bytes)

  /** The length field at the front of `b`: its value and its size, or nothing if it is not the shortest form. */
  function ReadLength(b: Bytes): Option<(nat, nat)>
  {
    if b == [] then None
    else if b[0] < 0x80 then Some((b[0], 1))
    else
      var k := b[0] - 0x80;
      if k == 0 || |b| < 1 + k || b[1] == 0 || FromBe(b[1..1 + k]) < 0x80 then None
      else Some((FromBe(b[1..1 + k]), 1 + k))
  }

  /** One strictly encoded element from the front of `b`. */
  function ReadTlv(b: Bytes): Option<Item>
  {
    if b == [] then None
    else
      match ReadLength(b[1..])
      case None => None
      case Some((len, size)) =>
        if |b| - 1 - size < len then None
        else Some(Item(b[0], b[1 + size..1 + size + len], b[1 + size + len..]))
  }

  lemma LengthReads(n: nat, tail: Bytes)
    requires n < USIZE_LIMIT
    ensures ReadLength(Length(n) + tail) == Some((n, |Length(n)|))
  {
    hide Digits, FromBe, Wire.Pow256;
    if n >= 0x80 {
      EightBytes(n);
      TrimmedBe(n, 8);
      FromBeOfDigits(n);
      assert (Length(n) + tail)[1..1 + |Digits(n)|] == Digits(n);
    }
  }

  /** Every element reads back, whatever follows it. */
  lemma TlvReads(tag: byte, body: Bytes, suffix: Bytes)
    requires |body| < USIZE_LIMIT
    ensures ReadTlv(Tlv(tag, body) + suffix) == Some(Item(tag, body, suffix))
  {
    hide Length, ReadLength;
    var b := Tlv(tag, body) + suffix;
    assert b[1..] == Length(|body|) + (body + suffix);
    LengthReads(|body|, body + suffix);
    var at := 1 + |Length(|body|)|;
    assert b[at..at + |body|] == body && b[at + |body|..] == suffix;
  }

  lemma LengthWrites(b: Bytes)
    requires ReadLength(b).Some? && ReadLength(b).value.0 < USIZE_LIMIT
    ensures var (len, size) := ReadLength(b).value; size <= |b| && Length(len) == b[..size]
  {
    hide Digits, FromBe, Wire.Pow256;
    if b[0] >= 0x80 {
      var k := b[0] - 0x80;
      DigitsOfFromBe(b[1..1 + k]);
    }
  }

  /** And only that element reads so: nothing else is strict DER for it. */
  lemma TlvWrites(b: Bytes)
    requires ReadTlv(b).Some? && |b| < USIZE_LIMIT
    ensures var i := ReadTlv(b).value; Tlv(i.tag, i.body) + i.rest == b
  {
    hide Length, ReadLength;
    var (len, size) := ReadLength(b[1..]).value;
    LengthWrites(b[1..]);
    assert b == [b[0]] + b[1..][..size] + b[1 + size..1 + size + len] + b[1 + size + len..];
  }

  // ------------------------------------------------------------------- members

  function Concat(members: seq<Bytes>): Bytes
  {
    if members == [] then [] else members[0] + Concat(members[1..])
  }

  function Sequence(members: seq<Bytes>): Bytes { Tlv(SEQUENCE, Concat(members)) }

  function Set(members: seq<Bytes>): Bytes { Tlv(SET, Concat(members)) }

  function BitString(bits: Bytes): Bytes { Tlv(BIT_STRING, [0x00] + bits) }

  function SmallInteger(v: byte): Bytes { Tlv(INTEGER, [v]) }

  function Utf8String(text: Bytes): Bytes { Tlv(UTF8_STRING, text) }

  /** The elements of a body, each with its own encoding; nothing if the body is not exactly elements. */
  function Split(b: Bytes): Option<seq<Bytes>>
    decreases |b|
  {
    if b == [] then Some([])
    else
      match ReadTlv(b)
      case None => None
      case Some(i) =>
        if Split(i.rest).None? then None else Some([b[..|b| - |i.rest|]] + Split(i.rest).value)
  }

  ghost predicate IsElement(m: Bytes) { exists tag, body: Bytes :: m == Tlv(tag, body) && |body| < USIZE_LIMIT }

  /** Elements written one after another split back into exactly those elements. */
  lemma {:induction false} SplitOfConcat(members: seq<Bytes>)
    requires forall i :: 0 <= i < |members| ==> IsElement(members[i])
    ensures Split(Concat(members)) == Some(members)
  {
    hide Tlv, ReadTlv;
    if members != [] {
      SplitOfConcat(members[1..]);
      var tag, body: Bytes :| members[0] == Tlv(tag, body) && |body| < USIZE_LIMIT;
      var rest := Concat(members[1..]);
      TlvReads(tag, body, rest);
      NonEmpty(tag, body);
      assert (members[0] + rest)[..|members[0] + rest| - |rest|] == members[0];
      assert [members[0]] + members[1..] == members;
    }
  }

  lemma NonEmpty(tag: byte, body: Bytes)
    ensures |Tlv(tag, body)| >= 2
  {
  }

  // ------------------------------------------------------------------ integers

  function IntegerBody(magnitude: Bytes): Bytes
  {
    var t := Trimmed(magnitude);
    if t == [] then [0x00] else if t[0] >= 0x80 then [0x00] + t else t
  }

  method UnsignedInteger(magnitude: Bytes) returns (out: Bytes)
    requires |magnitude| < USIZE_LIMIT - 1
    ensures out == Tlv(INTEGER, IntegerBody(magnitude))
  {
    hide Tlv, Trimmed;
    TrimmedIsSuffix(magnitude);
    var start := FirstNonzero(magnitude, |magnitude|);
    var trimmed := magnitude[start..];
    assert trimmed == Trimmed(magnitude);
    if trimmed == [] {
      out := WriteTlv(INTEGER, [0x00]);
      return;
    }
    var body: Bytes := [];
    if trimmed[0] >= 0x80 {
      body := body + [0x00];
    }
    body := body + trimmed;
    assert body == IntegerBody(magnitude);
    out := WriteTlv(INTEGER, body);
  }

  /** Two's complement, most significant byte first. */
  function Signed(b: Bytes): int
    requires b != []
  {
    if b[0] < 0x80 then FromBe(b) else FromBe(b) - Wire.Pow256(|b|)
  }

  /** No leading byte that only repeats the sign. */
  predicate ShortestInteger(b: Bytes)
  {
    && b != []
    && (|b| > 1 ==> !(b[0] == 0x00 && b[1] < 0x80) && !(b[0] == 0xFF && b[1] >= 0x80))
  }

  /** An integer is written in its one legal form, and reads back as the same unsigned value. */
  lemma IntegerReads(magnitude: Bytes, suffix: Bytes)
    requires |magnitude| < USIZE_LIMIT - 1
    ensures var body := IntegerBody(magnitude);
            && ReadTlv(Tlv(INTEGER, body) + suffix) == Some(Item(INTEGER, body, suffix))
            && ShortestInteger(body) && Signed(body) == FromBe(magnitude)
  {
    hide Tlv, ReadTlv, Trimmed, Wire.Pow256;
    var t := Trimmed(magnitude);
    TrimmedValue(magnitude);
    if t != [] && t[0] >= 0x80 {
      LeadingZero([0x00] + t);
      assert ([0x00] + t)[1..] == t;
    }
    TlvReads(INTEGER, IntegerBody(magnitude), suffix);
  }

  // -------------------------------------------------------- object identifiers

  /** The leading digits of an arc, seven bits each, with the continuation bit. */
  function High(v: nat): Bytes { if v == 0 then [] else High(v / 128) + [128 + v % 128] }

  function Base128(v: nat): Bytes { High(v / 128) + [v % 128] }

  function Arcs(arcs: seq<u32>): Bytes { if arcs == [] then [] else Base128(arcs[0]) + Arcs(arcs[1..]) }

  predicate Legal(arcs: seq<u32>) { |arcs| >= 2 && arcs[0] <= 2 && arcs[1] < 40 }

  function OidBody(arcs: seq<u32>): Bytes
    requires Legal(arcs)
  {
    [arcs[0] * 40 + arcs[1]] + Arcs(arcs[2..])
  }

  function Pow128(n: nat): (r: nat)
    ensures r > 0
  {
    if n == 0 then 1 else 128 * Pow128(n - 1)
  }

  lemma FiveDigits(v: u32)
    ensures v < Pow128(5)
  {
    assert Pow128(2) == 16384 && Pow128(4) == 16384 * 16384;
  }

  type Digit = x: nat | x < 128

  function Continuing(d: Digit): byte { var x: nat := d; 128 + x }

  /** Digits `1` to `n`, most significant first, each with the continuation bit. */
  function Continued(d: seq<Digit>, n: nat): Bytes
    requires 1 <= n <= |d|
  {
    if n == 1 then [] else [Continuing(d[n - 1])] + Continued(d, n - 1)
  }

  lemma {:induction false} ContinuedFrame(d: seq<Digit>, e: seq<Digit>, n: nat)
    requires 1 <= n <= |d| == |e| && forall i :: 1 <= i < n ==> d[i] == e[i]
    ensures Continued(d, n) == Continued(e, n)
  {
    if n > 1 {
      ContinuedFrame(d, e, n - 1);
    }
  }

  lemma OneMoreDigit(d: seq<Digit>, e: seq<Digit>, n: nat, v: nat)
    requires 1 <= n < |d| && v > 0 && e == d[n := v % 128]
    ensures High(v / 128) + Continued(e, n + 1) == High(v) + Continued(d, n)
  {
    ContinuedFrame(d, e, n);
  }

  lemma DropDigit(v: nat, n: nat)
    requires v < Pow128(n) && (n > 0 || v > 0)
    ensures n > 0 && v / 128 < Pow128(n - 1)
  {
  }

  /** Five seven-bit digits hold any 32-bit arc; they are found last first, and written in reverse. */
  method WriteBase128(out: Bytes, arc: u32) returns (r: Bytes)
    ensures r == out + Base128(arc)
  {
    hide High, Pow128, Continued;
    var digits := new Digit[5](_ => 0);
    var n, v: nat, more := 0, arc, true;
    FiveDigits(arc);
    while more
      invariant n <= 5 && v < Pow128(5 - n)
      invariant n == 0 ==> v == arc && more
      invariant n > 0 ==> more == (v != 0) && digits[0] == arc % 128
      invariant n > 0 ==> High(arc / 128) == High(v) + Continued(digits[..], n)
      decreases v, more
    {
      ghost var before := digits[..];
      DropDigit(v, 5 - n);
      digits[n] := v % 128;
      if n > 0 {
        OneMoreDigit(before, digits[..], n, v);
      } else {
        OneDigit(digits[..], arc / 128);
      }
      n := n + 1;
      v := v / 128;
      more := v != 0;
    }
    NoHigh(Continued(digits[..], n));
    r := out;
    var i := n;
    while i > 1
      invariant digits[0] == arc % 128
      invariant 1 <= i <= n && r + Continued(digits[..], i) == out + High(arc / 128)
    {
      i := i - 1;
      ContinuedHead(r, digits[..], i + 1);
      r := r + [Continuing(digits[i])];
    }
    OneDigit(digits[..], 0);
    assert (out + High(arc / 128)) + [digits[0]] == out + Base128(arc);
    r := r + [digits[0]];
  }

  lemma OneDigit(d: seq<Digit>, v: nat)
    requires d != []
    ensures Continued(d, 1) == [] && High(v) + Continued(d, 1) == High(v)
  {
  }

  lemma NoHigh(b: Bytes)
    ensures High(0) + b == b
  {
  }

  lemma ContinuedHead(r: Bytes, d: seq<Digit>, n: nat)
    requires 1 < n <= |d|
    ensures r + Continued(d, n) == (r + [Continuing(d[n - 1])]) + Continued(d, n - 1)
  {
  }

  method WriteOid(arcs: seq<u32>) returns (out: Bytes)
    requires Legal(arcs) && |OidBody(arcs)| < USIZE_LIMIT
    ensures out == Tlv(OID, OidBody(arcs))
  {
    hide Base128, Tlv;
    var body: Bytes := [arcs[0] * 40 + arcs[1]];
    for i := 2 to |arcs|
      invariant body + Arcs(arcs[i..]) == OidBody(arcs)
    {
      ArcsStep(body, arcs, i);
      body := WriteBase128(body, arcs[i]);
    }
    assert body + [] == body;
    out := WriteTlv(OID, body);
  }

  lemma ArcsStep(body: Bytes, arcs: seq<u32>, i: nat)
    requires i < |arcs|
    ensures body + Arcs(arcs[i..]) == (body + Base128(arcs[i])) + Arcs(arcs[i + 1..])
  {
    hide Base128;
    assert arcs[i..][1..] == arcs[i + 1..];
  }

  /** One arc from the front of `b`, after `acc` of its digits; its first digit may not be a zero to continue. */
  function ReadArc(b: Bytes, acc: nat): Option<(nat, Bytes)>
  {
    if b == [] || (acc == 0 && b[0] == 128) then None
    else if b[0] < 128 then Some((acc * 128 + b[0], b[1..]))
    else ReadArc(b[1..], acc * 128 + (b[0] - 128))
  }

  lemma {:induction false} ReadArcShrinks(b: Bytes, acc: nat)
    ensures ReadArc(b, acc).Some? ==> |ReadArc(b, acc).value.1| < |b|
  {
    if b != [] && b[0] >= 128 {
      ReadArcShrinks(b[1..], acc * 128 + (b[0] - 128));
    }
  }

  function ReadArcs(b: Bytes): Option<seq<nat>>
    decreases |b|
  {
    if b == [] then Some([])
    else
      ReadArcShrinks(b, 0);
      match ReadArc(b, 0)
      case None => None
      case Some((v, rest)) => if ReadArcs(rest).None? then None else Some([v] + ReadArcs(rest).value)
  }

  function ReadOid(b: Bytes): Option<seq<nat>>
  {
    if b == [] || b[0] >= 128 || ReadArcs(b[1..]).None? then None
    else
      var root := if b[0] < 40 then 0 else if b[0] < 80 then 1 else 2;
      Some([root, b[0] - 40 * root] + ReadArcs(b[1..]).value)
  }

  lemma {:induction false} HighReads(u: nat, t: Bytes)
    requires t != [] && t[0] != 128
    ensures ReadArc(High(u) + t, 0) == ReadArc(t, u)
    decreases u
  {
    if u == 0 {
      assert High(u) + t == t;
    } else {
      HighReadsThrough(u, t);
    }
  }

  /** The digits already read are carried on, whatever comes next. */
  lemma {:induction false} HighReadsThrough(u: nat, t: Bytes)
    requires u > 0
    ensures ReadArc(High(u) + t, 0) == ReadArc(t, u)
    decreases u
  {
    var last: Bytes := [128 + u % 128];
    assert High(u) + t == High(u / 128) + (last + t);
    assert (last + t)[1..] == t;
    if u / 128 > 0 {
      HighReadsThrough(u / 128, last + t);
    } else {
      assert High(u / 128) + (last + t) == last + t;
    }
  }

  lemma Base128Reads(v: nat, s: Bytes)
    ensures ReadArc(Base128(v) + s, 0) == Some((v, s))
  {
    hide High;
    var low: Bytes := [v % 128];
    assert Base128(v) + s == High(v / 128) + (low + s);
    HighReads(v / 128, low + s);
    assert (low + s)[1..] == s;
  }

  lemma {:induction false} ArcsRead(arcs: seq<u32>)
    ensures ReadArcs(Arcs(arcs)) == Some(arcs)
  {
    hide Base128, ReadArc;
    if arcs != [] {
      ArcsRead(arcs[1..]);
      Base128Reads(arcs[0], Arcs(arcs[1..]));
      SomeByte(arcs[0]);
      assert [arcs[0]] + arcs[1..] == arcs;
    }
  }

  lemma SomeByte(v: nat)
    ensures Base128(v) != []
  {
  }

  /** Every legal identifier reads back, arc by arc. */
  lemma OidReads(arcs: seq<u32>, suffix: Bytes)
    requires Legal(arcs) && |OidBody(arcs)| < USIZE_LIMIT
    ensures ReadTlv(Tlv(OID, OidBody(arcs)) + suffix) == Some(Item(OID, OidBody(arcs), suffix))
    ensures ReadOid(OidBody(arcs)) == Some(arcs)
  {
    hide Tlv, ReadTlv, Arcs, ReadArcs;
    TlvReads(OID, OidBody(arcs), suffix);
    ArcsRead(arcs[2..]);
    assert OidBody(arcs)[1..] == Arcs(arcs[2..]);
    assert [arcs[0], arcs[1]] + arcs[2..] == arcs;
  }

  // And only its own body reads as an identifier: the reader refuses padded arcs.

  /** What is read with `acc` already in hand was written as the rest of one arc. */
  lemma {:induction false} ArcWrites(b: Bytes, acc: nat)
    requires ReadArc(b, acc).Some?
    ensures var (v, rest) := ReadArc(b, acc).value; High(acc) + b == Base128(v) + rest
    decreases |b|
  {
    var low := b[0];
    if low < 128 {
      Split128(acc, low);
      assert b == [low] + b[1..];
      assert High(acc) + b == High(acc) + [low] + b[1..];
    } else {
      var next := acc * 128 + (low - 128);
      Split128(acc, low - 128);
      ArcWrites(b[1..], next);
      assert High(next) == High(acc) + [low];
      assert High(next) + b[1..] == High(acc) + b by { assert b == [low] + b[1..]; }
    }
  }

  lemma Split128(high: nat, low: nat)
    requires low < 128
    ensures (high * 128 + low) / 128 == high && (high * 128 + low) % 128 == low
  {
  }

  lemma {:induction false} ArcsWrite(b: Bytes)
    requires ReadArcs(b).Some? && forall i :: 0 <= i < |ReadArcs(b).value| ==> ReadArcs(b).value[i] <= U32_MAX
    ensures Arcs(ReadArcs(b).value) == b
    decreases |b|
  {
    hide Base128, ReadArc;
    if b != [] {
      ReadArcShrinks(b, 0);
      ArcWrites(b, 0);
      NoHigh(b);
      var (v, rest) := ReadArc(b, 0).value;
      assert ReadArcs(b).value == [v] + ReadArcs(rest).value;
      assert forall i :: 0 <= i < |ReadArcs(rest).value| ==> ReadArcs(rest).value[i] == ReadArcs(b).value[i + 1];
      ArcsWrite(rest);
      assert ReadArcs(b).value[1..] == ReadArcs(rest).value;
    }
  }

  /** A body read as an identifier within the writer's range is that identifier's own body. */
  lemma OidWrites(b: Bytes)
    requires ReadOid(b).Some? && forall i :: 0 <= i < |ReadOid(b).value| ==> ReadOid(b).value[i] <= U32_MAX
    requires ReadOid(b).value[1] < 40
    ensures Legal(ReadOid(b).value) && OidBody(ReadOid(b).value) == b
  {
    hide ReadArcs, Arcs;
    var arcs, rest := ReadOid(b).value, ReadArcs(b[1..]).value;
    assert arcs[2..] == rest;
    assert forall i :: 0 <= i < |rest| ==> rest[i] == arcs[i + 2];
    ArcsWrite(b[1..]);
    assert b == [b[0]] + b[1..];
  }
}
