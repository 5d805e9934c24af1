/** The encodings of src/venue/l2.py are the canonical ones: what they look like, byte by byte,
    and that no shorter text decodes to the same item, although the decoder reads many longer
    ones. */
module Canonical {
  import opened Basics
  import opened Bytes
  import opened Rlp

  // ----- byte by byte -----

  /** A byte below 0x80 stands for itself. */
  lemma SmallByte(x: Byte)
    requires x < 0x80
    ensures Encode(Str([x])) == Some([x])
  {}

  /** Any other string up to 55 bytes follows one byte, 0x80 plus its length. */
  lemma ShortString(b: seq<Byte>)
    requires |b| < 56 && (|b| != 1 || b[0] >= 0x80)
    ensures Encode(Str(b)) == Some([0x80 + |b|] + b)
  {}

  /** A longer one follows 0xB7 plus the length of its length, and its length, without a
      leading zero. */
  lemma LongString(b: seq<Byte>) returns (size: seq<Byte>)
    requires 56 <= |b| < LENGTH_LIMIT
    ensures 1 <= |size| <= 8 && FromBytes(size) == |b| && size[0] != 0
    ensures Encode(Str(b)) == Some([0xB7 + |size|] + size + b)
  {
    size := ToBytes(|b|);
    NoLeadingZero(|b|);
    PrefixedLong(b, 0x80);
    hide Prefixed, FromBytes, ToBytes;
  }

  /** A number is the string of its bytes, the highest first and without a leading zero. */
  lemma Number(n: nat) returns (b: seq<Byte>)
    ensures Encode(Num(n)) == Encode(Str(b)) && FromBytes(b) == n && (b != [] ==> b[0] != 0)
  {
    b := ToBytes(n);
    FromToBytes(n);
    NoLeadingZero(n);
  }

  /** The encodings of the items, one after the other. */
  ghost predicate Joined(items: seq<Item>, parts: seq<seq<Byte>>, out: seq<Byte>)
    decreases items
  {
    && |parts| == |items|
    && if items == [] then out == []
       else Encode(items[0]) == Some(parts[0]) && parts[0] <= out && Joined(items[1..], parts[1..], out[|parts[0]|..])
  }

  lemma {:induction false} EncodedParts(items: seq<Item>) returns (parts: seq<seq<Byte>>)
    requires EncodeAll(items).Some?
    ensures Joined(items, parts, EncodeAll(items).value)
  {
    hide Encode;
    if items == [] {
      parts := [];
    } else {
      var rest := EncodedParts(items[1..]);
      var first := Encode(items[0]).value;
      parts := [first] + rest;
      assert parts[1..] == rest && (first + EncodeAll(items[1..]).value)[|first|..] == EncodeAll(items[1..]).value;
    }
  }

  /** A list is its items' encodings behind 0xC0 plus their length, or behind 0xF7 plus the
      length of their length, and their length. */
  lemma ListForm(items: seq<Item>) returns (parts: seq<seq<Byte>>, out: seq<Byte>, size: seq<Byte>)
    requires Fits(List(items))
    ensures Joined(items, parts, out) && FromBytes(size) == |out| && (size != [] ==> size[0] != 0)
    ensures Encode(List(items)) == Some(if |out| < 56 then [0xC0 + |out|] + out else [0xF7 + |size|] + size + out)
  {
    parts := EncodedParts(items);
    out := EncodeAll(items).value;
    size := ToBytes(|out|);
    FromToBytes(|out|);
    NoLeadingZero(|out|);
    if |out| >= 56 { PrefixedLong(out, 0xC0); }
    hide Joined, ToBytes, FromBytes, EncodeAll;
  }

  // ----- nothing shorter -----

  function Least(m: nat, n: nat): nat {
    if m < n then m else n
  }

  /** How many bytes stand in front of a payload of this length. */
  function HeaderSize(length: nat): nat {
    if length < 56 then 1 else 1 + |ToBytes(length)|
  }

  lemma PrefixedSize(payload: seq<Byte>, offset: nat)
    requires offset < 200 && Prefixed(payload, offset).Some?
    ensures |Prefixed(payload, offset).value| == HeaderSize(|payload|) + |payload|
  {}

  lemma HeaderGrows(m: nat, n: nat)
    requires m <= n
    ensures HeaderSize(m) <= HeaderSize(n)
  {
    ToBytesGrows(m, n);
    hide ToBytes;
    if 56 <= n { SizeTakesBytes(n); }
  }

  lemma SizeTakesBytes(n: nat)
    requires n > 0
    ensures |ToBytes(n)| >= 1
  {}

  lemma SliceSize(data: seq<Byte>, lo: nat, hi: nat)
    requires lo <= hi
    ensures |Slice(data, lo, hi)| <= hi - lo
    ensures lo <= |data| ==> |Slice(data, lo, hi)| == Least(hi, |data|) - lo
    ensures lo > |data| ==> Slice(data, lo, hi) == []
  {}

  /** A length that llen bytes announce has a header of no more than 1 + llen bytes. */
  lemma AnnouncedSize(data: seq<Byte>, pos: nat, llen: nat)
    requires llen >= 1
    ensures HeaderSize(LongLength(data, pos, llen)) <= 1 + llen
  {
    var bytes := Slice(data, pos + 1, pos + 1 + llen);
    SliceSize(data, pos + 1, pos + 1 + llen);
    FromBytesBound(bytes);
    hide Slice, FromBytes, ToBytes;
    ToBytesLength(FromBytes(bytes), |bytes|);
  }

  /** What is read behind a header of h bytes, with the canonical header in its place. */
  lemma Room(data: seq<Byte>, pos: nat, h: nat, length: nat)
    requires pos < |data| && h >= 1 && HeaderSize(length) <= h
    ensures var m := |Slice(data, pos + h, pos + h + length)|;
      HeaderSize(m) + m <= Least(pos + h + length, |data|) - pos
  {
    var m := |Slice(data, pos + h, pos + h + length)|;
    SliceSize(data, pos + h, pos + h + length);
    HeaderGrows(m, length);
    hide Slice, ToBytes;
  }

  lemma StringSize(b: seq<Byte>)
    requires EncodeString(b).Some?
    ensures |EncodeString(b).value| <= HeaderSize(|b|) + |b|
  {
    if !(|b| == 1 && b[0] < 0x80) { PrefixedSize(b, 0x80); }
    hide Prefixed, ToBytes;
  }

  lemma ListSize(items: seq<Item>, room: nat)
    requires Encode(List(items)).Some? && |EncodeAll(items).value| <= room
    ensures |Encode(List(items)).value| <= HeaderSize(room) + room
  {
    var out := EncodeAll(items).value;
    PrefixedSize(out, 0xC0);
    hide Prefixed, EncodeAll, HeaderSize;
    HeaderGrows(|out|, room);
  }

  lemma OneByte(data: seq<Byte>, pos: nat)
    requires pos < |data| && data[pos] < 0x80
    ensures |Slice(data, pos, pos + 1)| == 1 && HeaderSize(0) == 1
    ensures EncodeString(Slice(data, pos, pos + 1)) == Some(Slice(data, pos, pos + 1))
  {
    SliceInside(data, pos, pos + 1);
  }

  lemma StringRead(data: seq<Byte>, pos: nat, h: nat, length: nat)
    requires pos < |data| && h >= 1 && HeaderSize(length) <= h
    ensures var b := Slice(data, pos + h, pos + h + length);
      EncodeString(b).Some? ==> |EncodeString(b).value| <= Least(pos + h + length, |data|) - pos
  {
    Room(data, pos, h, length);
    hide HeaderSize, EncodeString, Slice, Least;
    var b := Slice(data, pos + h, pos + h + length);
    if EncodeString(b).Some? { StringSize(b); }
  }

  lemma ListRead(data: seq<Byte>, pos: nat, h: nat, length: nat, items: seq<Item>)
    requires pos < |data| && h >= 1 && HeaderSize(length) <= h
    requires EncodeAll(items).Some? ==> |EncodeAll(items).value| <= |Slice(data, pos + h, pos + h + length)|
    ensures Encode(List(items)).Some? ==> |Encode(List(items)).value| <= Least(pos + h + length, |data|) - pos
  {
    Room(data, pos, h, length);
    if Encode(List(items)).Some? {
      hide HeaderSize, Slice, Least;
      ListSize(items, |Slice(data, pos + h, pos + h + length)|);
    }
  }

  /** The item that decoding reads at pos has no encoding longer than what was read. */
  lemma {:induction false} ShortestAt(data: seq<Byte>, pos: nat)
    requires pos < |data|
    ensures var (item, next) := Decode(data, pos);
      Encode(item).Some? ==> |Encode(item).value| <= Least(next, |data|) - pos
    decreases |data|, 0, 0
  {
    hide EncodeString, EncodeAll, FromBytes, ToBytes, LongLength, Slice, DecodeList;
    var b0 := data[pos];
    if b0 < 0x80 {
      OneByte(data, pos);
    } else if b0 < 0xB8 {
      StringRead(data, pos, 1, b0 - 0x80);
    } else if b0 < 0xC0 {
      var llen := b0 - 0xB7;
      AnnouncedSize(data, pos, llen);
      StringRead(data, pos, 1 + llen, LongLength(data, pos, llen));
    } else if b0 < 0xF8 {
      var length := b0 - 0xC0;
      SliceSize(data, pos + 1, pos + 1 + length);
      var part := Slice(data, pos + 1, pos + 1 + length);
      ShortestItems(part, 0);
      ListRead(data, pos, 1, length, DecodeList(part, 0));
    } else {
      var llen := b0 - 0xF7;
      var length := LongLength(data, pos, llen);
      AnnouncedSize(data, pos, llen);
      SliceSize(data, pos + 1 + llen, pos + 1 + llen + length);
      var part := Slice(data, pos + 1 + llen, pos + 1 + llen + length);
      ShortestItems(part, 0);
      ListRead(data, pos, 1 + llen, length, DecodeList(part, 0));
    }
  }

  lemma {:induction false} ShortestItems(data: seq<Byte>, pos: nat)
    requires pos <= |data|
    ensures EncodeAll(DecodeList(data, pos)).Some? ==> |EncodeAll(DecodeList(data, pos)).value| <= |data| - pos
    decreases |data|, 1, |data| - pos
  {
    if pos < |data| {
      hide Encode, Decode;
      var (item, next) := Decode(data, pos);
      var rest := DecodeList(data, next);
      assert DecodeList(data, pos) == [item] + rest && ([item] + rest)[1..] == rest;
      ShortestAt(data, pos);
      if next <= |data| {
        ShortestItems(data, next);
      } else {
        assert rest == [];
      }
    }
  }

  lemma {:induction false} NormalSame(x: Item)
    ensures Encode(Normal(x)) == Encode(x)
    decreases x, 1
  {
    hide EncodeString, ToBytes;
    match x
    case Str(b) =>
    case Num(n) =>
    case List(items) => NormalAllSame(items);
  }

  lemma {:induction false} NormalAllSame(items: seq<Item>)
    ensures EncodeAll(NormalAll(items)) == EncodeAll(items)
    decreases items, 0
  {
    hide Encode;
    if items != [] {
      NormalSame(items[0]);
      NormalAllSame(items[1..]);
      assert NormalAll(items)[1..] == NormalAll(items[1..]);
    }
  }

  /** No text that decodes to an item is shorter than the item's encoding. */
  lemma Shortest(x: Item, data: seq<Byte>)
    requires Fits(x) && data != [] && Decode(data, 0).0 == Normal(x)
    ensures Encode(x).Some? && |Encode(x).value| <= |data|
  {
    hide Decode, Encode, Normal, Fits;
    RoundTrip([], x, []);
    ShortestAt(data, 0);
    NormalSame(x);
  }

  /** Longer ones do decode: a small byte behind the prefix of a string of length one. */
  lemma LongerIsRead(x: Byte)
    requires x < 0x80
    ensures Decode([0x81, x], 0) == (Str([x]), 2) && |Encode(Str([x])).value| == 1
  {
    SliceInside([0x81, x], 1, 2);
    assert [0x81, x][1..2] == [x];
    SmallByte(x);
    hide FromBytes, DecodeList;
  }

  lemma SliceRest(data: seq<Byte>, lo: nat, hi: nat)
    requires lo <= |data| < hi
    ensures Slice(data, lo, hi) == data[lo..]
  {
    assert data[lo..|data|] == data[lo..];
  }

  /** So do texts that break off: a string or list that announces more than is left is read from
      what is left, and the position moves past the end of the text. */
  lemma TruncatedIsRead(data: seq<Byte>, pos: nat, n: nat)
    requires pos < |data| && pos + 1 + n > |data|
    ensures data[pos] == 0x80 + n && n < 56 ==> Decode(data, pos) == (Str(data[pos + 1..]), pos + 1 + n)
    ensures data[pos] == 0xC0 + n && n < 56 ==> Decode(data, pos) == (List(DecodeList(data[pos + 1..], 0)), pos + 1 + n)
  {
    hide FromBytes, DecodeList, Slice, LongLength;
    SliceRest(data, pos + 1, pos + 1 + n);
  }
}
