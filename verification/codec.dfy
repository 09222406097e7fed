/**
 * Fixed-layout binary codec in the style of the buffer-layout `struct`:
 * a layout is an ordered list of fields, each written at the cumulative
 * offset of the fields before it, with no padding. Integers are unsigned
 * little-endian; a public key is 32 raw bytes; a boolean is one byte.
 */
module Codec {
  import opened Wrappers

  type Byte = b: int | 0 <= b < 256

  function Pow256(k: nat): (p: nat)
    ensures p >= 1
  {
    if k == 0 then 1 else 256 * Pow256(k - 1)
  }

  /** `n` written in `width` bytes, least significant byte first (bytes past `width` are dropped). */
  function LittleEndian(n: nat, width: nat): (r: seq<Byte>)
    ensures |r| == width
    ensures width > 0 ==> r[0] == n % 256
    ensures FromLittleEndian(r) == n % Pow256(width)
  {
    if width == 0 then []
    else
      var rest := LittleEndian(n / 256, width - 1);
      var r := [n % 256] + rest;
      assert r[1..] == rest;
      ModSplit(n, Pow256(width - 1));
      r
  }

  /** Splitting off the low byte: n mod 256m is the low byte plus 256 times (n div 256) mod m. */
  lemma ModSplit(n: nat, m: nat)
    requires m > 0
    ensures n % (256 * m) == n % 256 + 256 * ((n / 256) % m)
  {
    var q, r0 := n / 256, n % 256;
    var q2, r1 := q / m, q % m;
    var y := 256 * r1 + r0;
    assert n == 256 * q + r0;
    assert q == m * q2 + r1;
    assert n == (256 * m) * q2 + y;
    assert 0 <= y < 256 * m;
    ModUnique(n, 256 * m, q2, y);
  }

  /** Euclidean remainder is unique. */
  lemma ModUnique(n: nat, d: nat, q: nat, y: nat)
    requires d > 0 && n == d * q + y && y < d
    ensures n % d == y
  {
    var q', y' := n / d, n % d;
    assert d * q' + y' == d * q + y;
    MulStep(d, q', q);
    MulStep(d, q, q');
  }

  lemma MulStep(d: nat, a: int, b: int)
    ensures a < b ==> d * a + d <= d * b
  {
    if a < b {
      var k: nat := b - a - 1;
      assert d * b == d * a + d * k + d;
      assert d * k >= 0;
    }
  }

  /** The unsigned integer whose little-endian bytes are `s`. */
  function FromLittleEndian(s: seq<Byte>): (n: nat)
    ensures n < Pow256(|s|)
  {
    if s == [] then 0 else s[0] + 256 * FromLittleEndian(s[1..])
  }

  lemma {:induction false} LittleEndianRoundTrip(n: nat, width: nat)
    requires n < Pow256(width)
    ensures FromLittleEndian(LittleEndian(n, width)) == n
  {
    if width > 0 {
      LittleEndianRoundTrip(n / 256, width - 1);
      assert LittleEndian(n, width)[1..] == LittleEndian(n / 256, width - 1);
    }
  }

  lemma {:induction false} LittleEndianOfDecoded(s: seq<Byte>)
    ensures LittleEndian(FromLittleEndian(s), |s|) == s
  {
    if s != [] {
      var n := FromLittleEndian(s);
      assert n % 256 == s[0] && n / 256 == FromLittleEndian(s[1..]);
      LittleEndianOfDecoded(s[1..]);
      assert s == [s[0]] + s[1..];
    }
  }

  /** The field kinds: `u8`, `u32`, `u64`, `publicKey` and `bool`. */
  datatype Field = U8 | U32 | U64 | Pubkey | Bool

  /** A field value: an unsigned integer, the raw bytes of a key, or a boolean. */
  datatype Value = UInt(n: nat) | Key(bytes: seq<Byte>) | Flag(b: bool)

  function Width(f: Field): nat
  {
    match f
    case U8 => 1
    case U32 => 4
    case U64 => 8
    case Pubkey => 32
    case Bool => 1
  }

  predicate IsInteger(f: Field)
  {
    f == U8 || f == U32 || f == U64
  }

  /** 2^64: one past the largest `u64`. */
  const U64_LIMIT: nat := 0x1_0000_0000_0000_0000

  /** One past the largest value of an integer field. */
  function Limit(f: Field): nat
    requires IsInteger(f)
  {
    match f
    case U8 => 0x100
    case U32 => 0x1_0000_0000
    case _ => U64_LIMIT
  }

  lemma LimitIsPow256(f: Field)
    requires IsInteger(f)
    ensures Limit(f) == Pow256(Width(f))
  {
    assert Pow256(1) == 0x100;
    assert Pow256(4) == 0x1_0000_0000 by {
      assert Pow256(2) == 0x1_0000;
    }
    assert Pow256(8) == U64_LIMIT by {
      assert Pow256(4) == 0x1_0000_0000 by {
        assert Pow256(2) == 0x1_0000;
      }
      assert Pow256(6) == 0x1_0000_0000_0000;
    }
  }

  /** The field's domain: the right kind of value, and an integer that fits its width. */
  predicate Fits(f: Field, v: Value)
  {
    match f
    case Pubkey => v.Key? && |v.bytes| == 32
    case Bool => v.Flag?
    case _ => v.UInt? && v.n < Limit(f)
  }

  function EncodeField(f: Field, v: Value): (r: seq<Byte>)
    requires Fits(f, v)
    ensures |r| == Width(f)
  {
    match f
    case Pubkey => v.bytes
    case Bool => [if v.b then 1 else 0]
    case _ => LittleEndian(v.n, Width(f))
  }

  /** Reads a field from exactly its width of bytes; a boolean is true for any non-zero byte. */
  function DecodeField(f: Field, s: seq<Byte>): (v: Value)
    requires |s| == Width(f)
    ensures Fits(f, v)
    ensures IsInteger(f) ==> v == UInt(FromLittleEndian(s))
    ensures f == Pubkey ==> v == Key(s)
    ensures f == Bool ==> v == Flag(s[0] != 0)
  {
    match f
    case Pubkey => Key(s)
    case Bool => Flag(s[0] != 0)
    case _ => LimitIsPow256(f); UInt(FromLittleEndian(s))
  }

  lemma FieldRoundTrip(f: Field, v: Value)
    requires Fits(f, v)
    ensures DecodeField(f, EncodeField(f, v)) == v
  {
    if IsInteger(f) {
      LimitIsPow256(f);
      LittleEndianRoundTrip(v.n, Width(f));
    }
  }

  /** Bytes that re-encode to themselves: a boolean byte is 0 or 1. */
  predicate CanonicalField(f: Field, s: seq<Byte>)
    requires |s| == Width(f)
  {
    f == Bool ==> s[0] <= 1
  }

  lemma FieldInverse(f: Field, s: seq<Byte>)
    requires |s| == Width(f) && CanonicalField(f, s)
    ensures EncodeField(f, DecodeField(f, s)) == s
  {
    if IsInteger(f) {
      LittleEndianOfDecoded(s);
    }
  }

  /** Total byte length of a layout: the sum of its field widths. */
  function Span(layout: seq<Field>): nat
  {
    if layout == [] then 0 else Width(layout[0]) + Span(layout[1..])
  }

  /** Where field `i` starts: the span of the fields before it. */
  function Offset(layout: seq<Field>, i: nat): nat
    requires i <= |layout|
  {
    Span(layout[..i])
  }

  lemma {:induction false} SpanAppend(a: seq<Field>, b: seq<Field>)
    ensures Span(a + b) == Span(a) + Span(b)
  {
    if a == [] {
      assert a + b == b;
    } else {
      assert (a + b)[1..] == a[1..] + b;
      SpanAppend(a[1..], b);
    }
  }

  /** Offsets are cumulative: each field ends where the next begins, and the last ends at the span. */
  lemma OffsetStep(layout: seq<Field>, i: nat)
    requires i < |layout|
    ensures Offset(layout, i + 1) == Offset(layout, i) + Width(layout[i])
    ensures Offset(layout, |layout|) == Span(layout)
  {
    assert layout[..i + 1] == layout[..i] + [layout[i]];
    SpanAppend(layout[..i], [layout[i]]);
    assert layout[..|layout|] == layout;
  }

  /** Fields occupy strictly ordered, non-overlapping byte ranges inside the span. */
  lemma {:induction false} OffsetsDisjoint(layout: seq<Field>, i: nat, j: nat)
    requires i < j <= |layout|
    ensures Offset(layout, i) + Width(layout[i]) <= Offset(layout, j) <= Span(layout)
    decreases |layout| - i
  {
    OffsetStep(layout, i);
    if j == i + 1 {
      if j < |layout| {
        OffsetsDisjoint(layout, j, |layout|);
      }
    } else {
      OffsetsDisjoint(layout, i + 1, j);
    }
  }

  /** Writes `values` field by field; fails when the values do not match the layout's domains. */
  function Encode(layout: seq<Field>, values: seq<Value>): (r: Result<seq<Byte>>)
    ensures r.Ok? <==> |values| == |layout| && forall i :: 0 <= i < |layout| ==> Fits(layout[i], values[i])
    ensures r.Ok? ==> |r.value| == Span(layout)
    ensures r.Err? ==> r.error == EncodingError
  {
    if |values| != |layout| then Err(EncodingError)
    else if layout == [] then Ok([])
    else if !Fits(layout[0], values[0]) then Err(EncodingError)
    else
      var rest := Encode(layout[1..], values[1..]);
      if rest.Err? then
        assert exists i :: 0 <= i < |layout| - 1 && !Fits(layout[1..][i], values[1..][i]);
        Err(EncodingError)
      else
        assert forall i :: 1 <= i < |layout| ==> layout[i] == layout[1..][i - 1] && values[i] == values[1..][i - 1];
        Ok(EncodeField(layout[0], values[0]) + rest.value)
  }

  /** Reads the layout from the front of `bytes`; fails when the buffer is shorter than the span. */
  function Decode(layout: seq<Field>, bytes: seq<Byte>): (r: Result<seq<Value>>)
    ensures r.Ok? <==> |bytes| >= Span(layout)
    ensures r.Ok? ==> |r.value| == |layout| && forall i :: 0 <= i < |layout| ==> Fits(layout[i], r.value[i])
    ensures r.Err? ==> r.error == DecodingError
  {
    if |bytes| < Span(layout) then Err(DecodingError)
    else if layout == [] then Ok([])
    else
      var w := Width(layout[0]);
      var rest := Decode(layout[1..], bytes[w..]);
      Ok([DecodeField(layout[0], bytes[..w])] + rest.value)
  }

  /** Every field read back from an encoding is the field that was written. */
  lemma {:induction false} DecodeEncode(layout: seq<Field>, values: seq<Value>)
    requires Encode(layout, values).Ok?
    ensures Decode(layout, Encode(layout, values).value) == Ok(values)
  {
    if layout != [] {
      var bytes := Encode(layout, values).value;
      var w := Width(layout[0]);
      var rest := Encode(layout[1..], values[1..]).value;
      assert bytes == EncodeField(layout[0], values[0]) + rest;
      assert bytes[..w] == EncodeField(layout[0], values[0]);
      assert bytes[w..] == rest;
      FieldRoundTrip(layout[0], values[0]);
      DecodeEncode(layout[1..], values[1..]);
      assert values == [values[0]] + values[1..];
    }
  }

  /** Every boolean byte within the layout's span is 0 or 1. */
  predicate Canonical(layout: seq<Field>, bytes: seq<Byte>)
    requires |bytes| >= Span(layout)
  {
    layout == [] ||
    (CanonicalField(layout[0], bytes[..Width(layout[0])]) && Canonical(layout[1..], bytes[Width(layout[0])..]))
  }

  /** Re-encoding decoded bytes gives back the span that was read, when its booleans are canonical. */
  lemma {:induction false} EncodeDecode(layout: seq<Field>, bytes: seq<Byte>)
    requires |bytes| >= Span(layout) && Canonical(layout, bytes)
    ensures Encode(layout, Decode(layout, bytes).value) == Ok(bytes[..Span(layout)])
  {
    if layout != [] {
      var w := Width(layout[0]);
      var values := Decode(layout, bytes).value;
      EncodeDecode(layout[1..], bytes[w..]);
      FieldInverse(layout[0], bytes[..w]);
      assert values[1..] == Decode(layout[1..], bytes[w..]).value;
      assert bytes[..Span(layout)] == bytes[..w] + bytes[w..][..Span(layout[1..])];
    }
  }

  /** Without boolean fields every byte string is canonical. */
  lemma {:induction false} CanonicalWithoutBool(layout: seq<Field>, bytes: seq<Byte>)
    requires |bytes| >= Span(layout) && Bool !in layout
    ensures Canonical(layout, bytes)
  {
    if layout != [] {
      assert layout[0] in layout;
      assert forall f :: f in layout[1..] ==> f in layout;
      CanonicalWithoutBool(layout[1..], bytes[Width(layout[0])..]);
    }
  }

  /** An encoding is the first field's bytes followed by the encoding of the rest. */
  lemma EncodeCons(layout: seq<Field>, values: seq<Value>)
    requires Encode(layout, values).Ok? && layout != []
    ensures Encode(layout[1..], values[1..]).Ok?
    ensures Encode(layout, values).value == EncodeField(layout[0], values[0]) + Encode(layout[1..], values[1..]).value
  {
  }

  lemma OffsetCons(layout: seq<Field>, i: nat)
    requires 0 < i <= |layout|
    ensures Offset(layout, i) == Width(layout[0]) + Offset(layout[1..], i - 1)
  {
    assert layout[..i][1..] == layout[1..][..i - 1];
  }

  lemma SliceOfConcat<T>(a: seq<T>, b: seq<T>, lo: nat, hi: nat)
    requires lo <= hi <= |b|
    ensures (a + b)[|a| + lo..|a| + hi] == b[lo..hi]
  {
  }

  /** Field `i` of an encoding sits at `Offset(layout, i)` and holds exactly that field's bytes. */
  lemma {:induction false} FieldAt(layout: seq<Field>, values: seq<Value>, i: nat)
    requires Encode(layout, values).Ok? && i < |layout|
    ensures Offset(layout, i) + Width(layout[i]) <= Span(layout)
    ensures Encode(layout, values).value[Offset(layout, i)..Offset(layout, i) + Width(layout[i])]
            == EncodeField(layout[i], values[i])
  {
    EncodeCons(layout, values);
    var bytes := Encode(layout, values).value;
    var head := EncodeField(layout[0], values[0]);
    var rest := Encode(layout[1..], values[1..]).value;
    var w := Width(layout[i]);
    if i == 0 {
      assert layout[..0] == [];
      assert bytes[0..w] == head;
    } else {
      FieldAt(layout[1..], values[1..], i - 1);
      OffsetCons(layout, i);
      var o := Offset(layout[1..], i - 1);
      assert layout[1..][i - 1] == layout[i] && values[1..][i - 1] == values[i];
      assert rest[o..o + w] == EncodeField(layout[i], values[i]);
      assert o + w <= |rest|;
      SliceOfConcat(head, rest, o, o + w);
    }
  }

  /** A `u8` field of an encoding is the single byte holding its value. */
  lemma ByteFieldAt(layout: seq<Field>, values: seq<Value>, i: nat)
    requires Encode(layout, values).Ok? && i < |layout| && layout[i] == U8
    ensures Offset(layout, i) < Span(layout)
    ensures Encode(layout, values).value[Offset(layout, i)] == values[i].n
  {
    var n := values[i].n;
    assert LittleEndian(n, 1) == [n] by {
      assert Pow256(1) == 0x100;
      assert LittleEndian(n, 1) == [n % 256] + LittleEndian(n / 256, 0);
    }
    FieldAt(layout, values, i);
  }

  /** A public-key field of an encoding is the key's 32 bytes, verbatim. */
  lemma KeyFieldAt(layout: seq<Field>, values: seq<Value>, i: nat)
    requires Encode(layout, values).Ok? && i < |layout| && layout[i] == Pubkey
    ensures Offset(layout, i) + 32 <= Span(layout)
    ensures Encode(layout, values).value[Offset(layout, i)..Offset(layout, i) + 32] == values[i].bytes
  {
    FieldAt(layout, values, i);
  }

  // The three layouts used by the client.

  /** `initializeMintInstructionData`: instruction u8, decimals u8, mintAuthority, freezeAuthorityOption u8, freezeAuthority. */
  const InitializeMintInstructionData: seq<Field> := [U8, U8, Pubkey, U8, Pubkey]

  /** `mintToInstructionData`: instruction u8, amount u64. */
  const MintToInstructionData: seq<Field> := [U8, U64]

  /**
   * `MintLayout`: mintAuthorityOption u32, mintAuthority, supply u64, decimals u8,
   * isInitialized bool, freezeAuthorityOption u32, freezeAuthority.
   */
  const MintLayout: seq<Field> := [U32, Pubkey, U64, U8, Bool, U32, Pubkey]

  /** `MINT_SIZE`: the byte length of a mint account, the span of `MintLayout`. */
  function MintSize(): (n: nat)
    ensures n == 4 + 32 + 8 + 1 + 1 + 4 + 32
  {
    Span(MintLayout)
  }

  lemma LayoutSpans()
    ensures Span(InitializeMintInstructionData) == 1 + 1 + 32 + 1 + 32 == 67
    ensures Span(MintToInstructionData) == 1 + 8 == 9
    ensures MintSize() == 82
  {
  }

  /** Field offsets of a mint account: 0, 4, 36, 44, 45, 46, 50. */
  lemma MintLayoutOffsets()
    ensures Offset(MintLayout, 0) == 0 && Offset(MintLayout, 1) == 4 && Offset(MintLayout, 2) == 36
    ensures Offset(MintLayout, 3) == 44 && Offset(MintLayout, 4) == 45 && Offset(MintLayout, 5) == 46
    ensures Offset(MintLayout, 6) == 50 && Offset(MintLayout, 7) == 82
  {
    var layout := MintLayout;
    OffsetStep(layout, 0);
    OffsetStep(layout, 1);
    OffsetStep(layout, 2);
    OffsetStep(layout, 3);
    OffsetStep(layout, 4);
    OffsetStep(layout, 5);
    OffsetStep(layout, 6);
  }
}
