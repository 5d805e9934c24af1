/** Recursive Length Prefix (Ethereum Yellow Paper, Appendix B) as src/venue/l2.py
    encodes and decodes it. */
module Rlp {
  import opened Basics
  import opened NumberTheory
  import opened Bytes

  /** What _rlp_encode accepts: byte strings, non-negative integers, and lists. */
  datatype Item = Str(b: seq<Byte>) | Num(n: nat) | List(items: seq<Item>)

  const LENGTH_LIMIT: nat := 0x1_0000_0000_0000_0000

  /** None is the ValueError of bytes([256]). */
  function EncodeLength(length: nat, offset: nat): Option<seq<Byte>>
    requires offset < 200
  {
    if length < 56 then Some([offset + length])
    else
      var bl := ToBytes(length);
      if offset + 55 + |bl| < 256 then Some([offset + 55 + |bl|] + bl) else None
  }

  function Prefixed(payload: seq<Byte>, offset: nat): Option<seq<Byte>>
    requires offset < 200
  {
    match EncodeLength(|payload|, offset)
    case None => None
    case Some(h) => Some(h + payload)
  }

  function EncodeString(b: seq<Byte>): Option<seq<Byte>> {
    if |b| == 1 && b[0] < 0x80 then Some(b) else Prefixed(b, 0x80)
  }

  function Encode(x: Item): Option<seq<Byte>>
    decreases x, 1
  {
    match x
    case Str(b) => EncodeString(b)
    case Num(n) => EncodeString(ToBytes(n))
    case List(items) =>
      match EncodeAll(items)
      case None => None
      case Some(out) => Prefixed(out, 0xC0)
  }

  function EncodeAll(items: seq<Item>): Option<seq<Byte>>
    decreases items, 0
  {
    if items == [] then Some([])
    else
      match (Encode(items[0]), EncodeAll(items[1..]))
      case (Some(a), Some(b)) => Some(a + b)
      case _ => None
  }

  // ----- the decoder -----

  /** data[lo:hi], clamped to the string as Python slices are. */
  function Slice(data: seq<Byte>, lo: nat, hi: nat): seq<Byte>
    requires lo <= hi
  {
    var l := if lo < |data| then lo else |data|;
    var h := if hi < |data| then hi else |data|;
    data[l..h]
  }

  /** The length announced by llen bytes after pos. */
  function LongLength(data: seq<Byte>, pos: nat, llen: nat): nat {
    FromBytes(Slice(data, pos + 1, pos + 1 + llen))
  }

  /** _rlp_decode: the item at pos and the position after it. It is total: inside the
      data it never raises, and it moves forward. */
  function Decode(data: seq<Byte>, pos: nat): (r: (Item, nat))
    requires pos < |data|
    ensures r.1 > pos
    decreases |data|, 0, 0
  {
    var b0 := data[pos];
    if b0 < 0x80 then (Str(Slice(data, pos, pos + 1)), pos + 1)
    else if b0 < 0xB8 then
      var length := b0 - 0x80;
      (Str(Slice(data, pos + 1, pos + 1 + length)), pos + 1 + length)
    else if b0 < 0xC0 then
      var start := pos + 1 + (b0 - 0xB7);
      var length := LongLength(data, pos, b0 - 0xB7);
      (Str(Slice(data, start, start + length)), start + length)
    else if b0 < 0xF8 then
      var length := b0 - 0xC0;
      (List(DecodeList(Slice(data, pos + 1, pos + 1 + length), 0)), pos + 1 + length)
    else
      var start := pos + 1 + (b0 - 0xF7);
      var length := LongLength(data, pos, b0 - 0xF7);
      (List(DecodeList(Slice(data, start, start + length), 0)), start + length)
  }

  /** The items _decode_list still has to append from pos on. */
  function DecodeList(data: seq<Byte>, pos: nat): seq<Item>
    decreases |data|, 1, |data| - pos
  {
    if pos >= |data| then []
    else
      var (item, next) := Decode(data, pos);
      [item] + DecodeList(data, next)
  }

  method DecodeAt(data: seq<Byte>, pos: nat) returns (item: Item, next: nat)
    requires pos < |data|
    ensures (item, next) == Decode(data, pos)
    decreases |data|, 0
  {
    hide LongLength, DecodeList, FromBytes;
    var b0 := data[pos];
    if b0 < 0x80 {
      return Str(Slice(data, pos, pos + 1)), pos + 1;
    }
    if b0 < 0xB8 {
      var length := b0 - 0x80;
      return Str(Slice(data, pos + 1, pos + 1 + length)), pos + 1 + length;
    }
    if b0 < 0xC0 {
      var start := pos + 1 + (b0 - 0xB7);
      var length := LongLength(data, pos, b0 - 0xB7);
      return Str(Slice(data, start, start + length)), start + length;
    }
    if b0 < 0xF8 {
      var length := b0 - 0xC0;
      var items := DecodeListLoop(Slice(data, pos + 1, pos + 1 + length));
      return List(items), pos + 1 + length;
    }
    var start := pos + 1 + (b0 - 0xF7);
    var length := LongLength(data, pos, b0 - 0xF7);
    var items := DecodeListLoop(Slice(data, start, start + length));
    return List(items), start + length;
  }

  /** _decode_list, as the loop it is. */
  method DecodeListLoop(data: seq<Byte>) returns (out: seq<Item>)
    ensures out == DecodeList(data, 0)
    decreases |data|, 1
  {
    out := [];
    var pos := 0;
    while pos < |data|
      invariant out + DecodeList(data, pos) == DecodeList(data, 0)
      decreases |data| - pos
    {
      var item, next := DecodeAt(data, pos);
      assert out + [item] + DecodeList(data, next) == out + ([item] + DecodeList(data, next));
      out, pos := out + [item], next;
    }
  }

  // ----- round trip -----

  /** What comes back: integers return as their minimal byte strings. */
  function Normal(x: Item): Item {
    match x
    case Str(b) => x
    case Num(n) => Str(ToBytes(n))
    case List(items) => List(NormalAll(items))
  }

  function NormalAll(items: seq<Item>): seq<Item> {
    if items == [] then [] else [Normal(items[0])] + NormalAll(items[1..])
  }

  /** Every string and every list payload is shorter than 2^64 bytes. */
  predicate Fits(x: Item)
    decreases x, 1
  {
    match x
    case Str(b) => |b| < LENGTH_LIMIT
    case Num(n) => |ToBytes(n)| < LENGTH_LIMIT
    case List(items) => AllFit(items) && |EncodeAll(items).value| < LENGTH_LIMIT
  }

  predicate AllFit(items: seq<Item>)
    ensures AllFit(items) ==> EncodeAll(items).Some?
    decreases items, 0
  {
    && (items != [] ==> Fits(items[0]) && AllFit(items[1..]))
    && EncodeAll(items).Some?
  }

  lemma LongHeader(length: nat, offset: nat)
    requires 56 <= length < LENGTH_LIMIT && offset <= 0xC0
    ensures 1 <= |ToBytes(length)| <= 8 && FromBytes(ToBytes(length)) == length
    ensures EncodeLength(length, offset) == Some([offset + 55 + |ToBytes(length)|] + ToBytes(length))
  {
    Pow256At8();
    ToBytesLength(length, 8);
    FromToBytes(length);
  }

  /** The header written in front of a short payload is read back as its length. */
  lemma ReadShortHeader(p: seq<Byte>, payload: seq<Byte>, s: seq<Byte>, offset: nat)
    requires offset <= 0xC0 && |payload| < 56
    ensures Prefixed(payload, offset) == Some([offset + |payload|] + payload)
    ensures var data, pos := p + Prefixed(payload, offset).value + s, |p|;
      pos < |data| && data[pos] == offset + |payload|
      && Slice(data, pos + 1, pos + 1 + |payload|) == payload
  {
    Layout(p, offset + |payload|, [], payload, s);
    assert [offset + |payload|] + [] + payload == [offset + |payload|] + payload;
    SliceInside(p + ([offset + |payload|] + payload) + s, |p| + 1, |p| + 1 + |payload|);
  }

  /** The same for a long payload, whose length takes one to eight bytes. */
  lemma PrefixedLong(payload: seq<Byte>, offset: nat)
    requires offset <= 0xC0 && 56 <= |payload| < LENGTH_LIMIT
    ensures var bl := ToBytes(|payload|);
      && 1 <= |bl| <= 8 && FromBytes(bl) == |payload| && Prefixed(payload, offset) == Some([offset + 55 + |bl|] + bl + payload)
  {
    LongHeader(|payload|, offset);
    hide EncodeLength, ToBytes, FromBytes;
  }

  lemma ReadLongHeader(p: seq<Byte>, payload: seq<Byte>, s: seq<Byte>, offset: nat) returns (llen: nat)
    requires offset <= 0xC0 && 56 <= |payload| < LENGTH_LIMIT
    ensures Prefixed(payload, offset).Some? && |Prefixed(payload, offset).value| == 1 + llen + |payload|
    ensures var data, pos := p + Prefixed(payload, offset).value + s, |p|;
      1 <= llen <= 8 && pos < |data| && data[pos] == offset + 55 + llen
      && LongLength(data, pos, llen) == |payload|
      && Slice(data, pos + 1 + llen, pos + 1 + llen + |payload|) == payload
  {
    hide Prefixed, EncodeLength, ToBytes, FromBytes, Slice;
    PrefixedLong(payload, offset);
    var bl := ToBytes(|payload|);
    llen := |bl|;
    Layout(p, offset + 55 + llen, bl, payload, s);
    var data := p + ([offset + 55 + llen] + bl + payload) + s;
    SliceInside(data, |p| + 1, |p| + 1 + llen);
    SliceInside(data, |p| + 1 + llen, |p| + 1 + llen + |payload|);
  }

  /** Where the parts of a long encoding lie. */
  lemma Layout(p: seq<Byte>, b: Byte, bl: seq<Byte>, payload: seq<Byte>, s: seq<Byte>)
    ensures var data, pos := p + ([b] + bl + payload) + s, |p|;
      && |data| == pos + 1 + |bl| + |payload| + |s| && data[pos] == b
      && data[pos + 1..pos + 1 + |bl|] == bl
      && data[pos + 1 + |bl|..pos + 1 + |bl| + |payload|] == payload
  {}

  lemma SliceInside(data: seq<Byte>, lo: nat, hi: nat)
    requires lo <= hi <= |data|
    ensures Slice(data, lo, hi) == data[lo..hi]
  {}

  lemma LongStringRead(p: seq<Byte>, b: seq<Byte>, s: seq<Byte>)
    requires 56 <= |b| < LENGTH_LIMIT
    ensures Prefixed(b, 0x80).Some?
    ensures Decode(p + Prefixed(b, 0x80).value + s, |p|) == (Str(b), |p| + |Prefixed(b, 0x80).value|)
  {
    hide Prefixed, Slice, LongLength, DecodeList;
    var _ := ReadLongHeader(p, b, s, 0x80);
  }

  lemma ShortStringRead(p: seq<Byte>, b: seq<Byte>, s: seq<Byte>)
    requires |b| < 56
    ensures Prefixed(b, 0x80).Some?
    ensures Decode(p + Prefixed(b, 0x80).value + s, |p|) == (Str(b), |p| + |Prefixed(b, 0x80).value|)
  {
    ReadShortHeader(p, b, s, 0x80);
    hide Prefixed, Slice, LongLength, DecodeList;
  }

  lemma OneByteRead(p: seq<Byte>, b: seq<Byte>, s: seq<Byte>)
    requires |b| == 1 && b[0] < 0x80
    ensures Decode(p + b + s, |p|) == (Str(b), |p| + 1)
  {
    SliceInside(p + b + s, |p|, |p| + 1);
    assert (p + b + s)[|p|..|p| + 1] == b;
    hide Slice, LongLength, DecodeList;
  }

  lemma StringRoundTrip(p: seq<Byte>, b: seq<Byte>, s: seq<Byte>)
    requires |b| < LENGTH_LIMIT
    ensures EncodeString(b).Some? && |EncodeString(b).value| > 0
    ensures Decode(p + EncodeString(b).value + s, |p|) == (Str(b), |p| + |EncodeString(b).value|)
  {
    hide Decode, Prefixed;
    if |b| == 1 && b[0] < 0x80 {
      OneByteRead(p, b, s);
    } else if |b| < 56 {
      ShortStringRead(p, b, s);
    } else {
      LongStringRead(p, b, s);
    }
  }

  lemma ListHeaderRoundTrip(p: seq<Byte>, payload: seq<Byte>, s: seq<Byte>)
    requires |payload| < LENGTH_LIMIT
    ensures Prefixed(payload, 0xC0).Some? && |Prefixed(payload, 0xC0).value| > 0
    ensures Decode(p + Prefixed(payload, 0xC0).value + s, |p|)
         == (List(DecodeList(payload, 0)), |p| + |Prefixed(payload, 0xC0).value|)
  {
    hide Prefixed, Slice, LongLength, DecodeList;
    if |payload| < 56 { ReadShortHeader(p, payload, s, 0xC0); } else { var _ := ReadLongHeader(p, payload, s, 0xC0); }
  }

  /** Decoding right after any prefix gives back exactly what was encoded, and stops
      exactly at the end of its encoding, whatever follows. */
  lemma {:induction false} RoundTrip(p: seq<Byte>, x: Item, s: seq<Byte>)
    requires Fits(x)
    ensures Encode(x).Some? && |Encode(x).value| > 0
    ensures Decode(p + Encode(x).value + s, |p|) == (Normal(x), |p| + |Encode(x).value|)
    decreases x, 1
  {
    hide Decode, DecodeList, Prefixed, EncodeString, ToBytes;
    match x
    case Str(b) => StringRoundTrip(p, b, s);
    case Num(n) => StringRoundTrip(p, ToBytes(n), s);
    case List(items) =>
      ListRoundTrip([], items);
      var out := EncodeAll(items).value;
      ListHeaderRoundTrip(p, out, s);
      assert [] + out == out;
  }

  lemma {:induction false} ListRoundTrip(p: seq<Byte>, items: seq<Item>)
    requires AllFit(items)
    ensures DecodeList(p + EncodeAll(items).value, |p|) == NormalAll(items)
    decreases items, 0
  {
    hide Decode, Encode;
    var out := EncodeAll(items).value;
    if items == [] {
    } else {
      var a, b := Encode(items[0]).value, EncodeAll(items[1..]).value;
      RoundTrip(p, items[0], b);
      ListRoundTrip(p + a, items[1..]);
      assert p + out == p + a + b;
    }
  }

  /** Every item whose strings and lists are shorter than 2^64 bytes can be encoded. */
  lemma {:induction false} AllFitIfEachFits(items: seq<Item>)
    requires forall i :: 0 <= i < |items| ==> Fits(items[i])
    ensures AllFit(items)
  {
    if items == [] {
    } else {
      RoundTrip([], items[0], []);
      AllFitIfEachFits(items[1..]);
    }
  }

  /** Encodings are prefix-free, so the encoding is injective up to Normal. */
  lemma PrefixFree(x: Item, y: Item, s: seq<Byte>, t: seq<Byte>)
    requires Fits(x) && Fits(y)
    requires Encode(x).Some? && Encode(y).Some? && Encode(x).value + s == Encode(y).value + t
    ensures Normal(x) == Normal(y) && Encode(x) == Encode(y) && s == t
  {
    hide Decode, Encode, Fits, Normal;
    RoundTrip([], x, s);
    RoundTrip([], y, t);
    var a, b := Encode(x).value, Encode(y).value;
    assert [] + a + s == a + s && [] + b + t == b + t;
    assert a == (a + s)[..|a|] && b == (b + t)[..|b|];
    assert s == (a + s)[|a|..] && t == (b + t)[|b|..];
  }

  // ----- where the round trip ends -----

  /** From 2^64 bytes on a string gets a list's prefix byte, or none at all, and a list none. */
  lemma LongPrefix(length: nat)
    requires length >= LENGTH_LIMIT
    ensures EncodeLength(length, 0xC0).None?
    ensures EncodeLength(length, 0x80).Some? ==> EncodeLength(length, 0x80).value[0] >= 0xC0
  {
    Pow256At8();
    ToBytesAtLeast(length, 8);
  }

  /** Just past the limit a string's length prefix takes the first list prefix. */
  lemma TooLongStringHeader(length: nat)
    requires LENGTH_LIMIT <= length < 256 * LENGTH_LIMIT
    ensures EncodeLength(length, 0x80).Some? && EncodeLength(length, 0x80).value[0] == 0xC0
    ensures EncodeLength(length, 0xC0).None?
  {
    LongPrefix(length);
    Pow256At8();
    ToBytesLength(length / 256, 8);
  }

  /** So a string that long is read back as a list. */
  lemma LongStringMisread(b: seq<Byte>)
    requires |b| >= LENGTH_LIMIT && EncodeString(b).Some?
    ensures EncodeString(b).value != [] && Decode(EncodeString(b).value, 0).0.List?
  {
    LongPrefix(|b|);
    assert EncodeString(b).value[0] == EncodeLength(|b|, 0x80).value[0];
    hide DecodeList, FromBytes, Slice;
  }

  lemma StringNotShorter(b: seq<Byte>)
    requires EncodeString(b).Some?
    ensures |b| <= |EncodeString(b).value|
  {}

  lemma PayloadFits(out: seq<Byte>)
    requires Prefixed(out, 0xC0).Some?
    ensures |out| < LENGTH_LIMIT
  {
    if |out| >= LENGTH_LIMIT { LongPrefix(|out|); }
  }

  /** Whatever sits inside an encoding shorter than 2^64 bytes fits. */
  lemma {:induction false} ShortEncodingFits(x: Item)
    requires Encode(x).Some? && |Encode(x).value| < LENGTH_LIMIT
    ensures Fits(x)
    decreases x, 1
  {
    match x
    case Str(b) => StringNotShorter(b);
    case Num(n) => StringNotShorter(ToBytes(n));
    case List(items) =>
      PayloadFits(EncodeAll(items).value);
      ShortEncodingsFit(items);
  }

  lemma {:induction false} ShortEncodingsFit(items: seq<Item>)
    requires EncodeAll(items).Some? && |EncodeAll(items).value| < LENGTH_LIMIT
    ensures AllFit(items)
    decreases items, 0
  {
    hide EncodeString;
    if items != [] {
      ShortEncodingFits(items[0]);
      ShortEncodingsFit(items[1..]);
    }
  }

  ghost predicate ComesBack(x: Item) {
    Encode(x).Some? && Encode(x).value != [] && Decode(Encode(x).value, 0).0 == Normal(x)
  }

  /** Encoding succeeds and decodes back to the item exactly when the item fits. */
  lemma RoundTripExactly(x: Item)
    ensures ComesBack(x) <==> Fits(x)
  {
    if Fits(x) {
      RoundTrip([], x, []);
      assert [] + Encode(x).value + [] == Encode(x).value;
    } else if Encode(x).Some? {
      match x
      case Str(b) => LongStringMisread(b);
      case Num(n) => LongStringMisread(ToBytes(n));
      case List(items) =>
        PayloadFits(EncodeAll(items).value);
        ShortEncodingsFit(items);
    }
  }

  lemma {:induction false} ToBytesAtLeast(n: nat, w: nat)
    requires n >= Pow(256, w)
    ensures |ToBytes(n)| > w
  {
    if w == 0 {
    } else {
      ToBytesAtLeast(n / 256, w - 1);
    }
  }
}
