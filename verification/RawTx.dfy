/** EIP-155 transactions: RealL2Venue._build_raw_tx and the reader that undoes it. */
module RawTx {
  import opened Basics
  import opened NumberTheory
  import opened Bytes
  import opened Secp256k1
  import opened Subgroup
  import opened Ecdsa
  import opened Rlp
  import opened Signer

  datatype Tx = Tx(nonce: nat, gasPrice: nat, gasLimit: nat, to: seq<Byte>, value: nat, data: seq<Byte>)

  function CommonFields(tx: Tx): seq<Item> {
    [Str(ToBytes(tx.nonce)), Str(ToBytes(tx.gasPrice)), Str(ToBytes(tx.gasLimit)),
     Str(tx.to), Str(ToBytes(tx.value)), Str(tx.data)]
  }

  /** The nine-field list whose hash is signed. */
  function SigningList(common: seq<Item>, chainId: nat): Item {
    List(common + [Str(ToBytes(chainId)), Str([]), Str([])])
  }

  function SignedList(tx: Tx, chainId: nat, sig: Signature): Item {
    List(CommonFields(tx) + [Str(ToBytes(V(chainId, sig))), Str(FixedBytes(sig.r, 32)), Str(FixedBytes(sig.s, 32))])
  }

  function V(chainId: nat, sig: Signature): nat {
    (if sig.recId >= 0 then sig.recId else 0) + 35 + chainId * 2
  }

  /** The digest to sign; None when RLP cannot encode the list. */
  function SigningDigest(keccak: Keccak, common: seq<Item>, chainId: nat): Option<seq<Byte>> {
    match Encode(SigningList(common, chainId))
    case None => None
    case Some(m) => Some(keccak(m))
  }

  /** _build_raw_tx; None when RLP raises or the signature cannot be made. */
  function BuildRawTx(keccak: Keccak, tx: Tx, chainId: nat, d: int, nonceOf: NonceSource): Option<seq<Byte>> {
    match SigningDigest(keccak, CommonFields(tx), chainId)
    case None => None
    case Some(digest) =>
      match SignAttempt(d, FromBytes(digest), nonceOf(d, digest))
      case Signed(sig) => Encode(SignedList(tx, chainId, sig))
      case _ => None
  }

  // ----- reading a raw transaction back -----

  datatype Reading = Reading(chainId: nat, digest: seq<Byte>, sender: AddressOutcome)

  /** Chain id and parity from v, the signing list rebuilt, and the sender recovered, as EIP-155
      prescribes. */
  function ReadSigned(keccak: Keccak, common: seq<Item>, v: nat, r: nat, s: nat): Option<Reading> {
    if v < 35 then None
    else
      var chainId, parity := (v - 35) / 2, (v - 35) % 2;
      match SigningDigest(keccak, common, chainId)
      case None => None
      case Some(digest) => Some(Reading(chainId, digest, AddressOfRecovered(keccak, Recover(FromBytes(digest), r, s, parity))))
  }

  function ReadFields(keccak: Keccak, fields: seq<Item>): Option<Reading> {
    if |fields| == 9 && fields[6].Str? && fields[7].Str? && fields[8].Str? then
      ReadSigned(keccak, fields[..6], FromBytes(fields[6].b), FromBytes(fields[7].b), FromBytes(fields[8].b))
    else None
  }

  /** Reads a raw transaction back from its nine fields. */
  function ReadRawTx(keccak: Keccak, raw: seq<Byte>): Option<Reading> {
    if raw == [] then None
    else
      match Decode(raw, 0).0
      case List(fields) => ReadFields(keccak, fields)
      case _ => None
  }

  lemma {:induction false} NormalStrings(items: seq<Item>)
    requires forall i :: 0 <= i < |items| ==> items[i].Str?
    ensures NormalAll(items) == items
  {
    if items == [] {
    } else {
      NormalStrings(items[1..]);
      assert items == [items[0]] + items[1..];
    }
  }

  lemma SignedNumbers(chainId: nat, sig: Signature)
    requires sig.r < N && sig.s < N && 0 <= sig.recId <= 1
    ensures FromBytes(ToBytes(V(chainId, sig))) == V(chainId, sig)
    ensures (V(chainId, sig) - 35) / 2 == chainId && (V(chainId, sig) - 35) % 2 == sig.recId
    ensures FromBytes(FixedBytes(sig.r, 32)) == sig.r && FromBytes(FixedBytes(sig.s, 32)) == sig.s
  {
    FromToBytes(V(chainId, sig));
    OrderFits();
    FromFixedBytes(sig.r, 32);
    FromFixedBytes(sig.s, 32);
    hide ToBytes, FromBytes, FixedBytes;
  }

  /** The signed list comes back field by field, and v splits into chain id and parity. */
  lemma ReadSignedList(tx: Tx, chainId: nat, sig: Signature)
    requires Fits(SignedList(tx, chainId, sig)) && sig.r < N && sig.s < N && 0 <= sig.recId <= 1
    ensures Encode(SignedList(tx, chainId, sig)).Some?
    ensures var raw := Encode(SignedList(tx, chainId, sig)).value;
      raw != [] && Decode(raw, 0).0 == SignedList(tx, chainId, sig)
    ensures var fields := SignedList(tx, chainId, sig).items;
      |fields| == 9 && fields[..6] == CommonFields(tx)
      && FromBytes(fields[6].b) == V(chainId, sig)
      && (V(chainId, sig) - 35) / 2 == chainId && (V(chainId, sig) - 35) % 2 == sig.recId
      && FromBytes(fields[7].b) == sig.r && FromBytes(fields[8].b) == sig.s
  {
    var x := SignedList(tx, chainId, sig);
    RoundTrip([], x, []);
    assert [] + Encode(x).value + [] == Encode(x).value;
    NormalStrings(x.items);
    SignedNumbers(chainId, sig);
    hide Fits, Encode, Decode, V, FixedBytes, ToBytes, FromBytes, NormalAll;
  }

  lemma SplitV(chainId: nat, parity: int)
    requires 0 <= parity <= 1
    ensures (parity + 35 + chainId * 2 - 35) / 2 == chainId && (parity + 35 + chainId * 2 - 35) % 2 == parity
  {}

  lemma SignedReading(keccak: Keccak, common: seq<Item>, chainId: nat, parity: int, r: nat, s: nat, digest: seq<Byte>)
    requires 0 <= parity <= 1 && SigningDigest(keccak, common, chainId) == Some(digest)
    ensures ReadSigned(keccak, common, parity + 35 + chainId * 2, r, s)
         == Some(Reading(chainId, digest, AddressOfRecovered(keccak, Recover(FromBytes(digest), r, s, parity))))
  {
    hide SigningDigest, AddressOfRecovered, Recover, FromBytes;
    SplitV(chainId, parity);
  }

  lemma Builds(keccak: Keccak, tx: Tx, chainId: nat, d: int, nonceOf: NonceSource, digest: seq<Byte>, sig: Signature)
    requires SigningDigest(keccak, CommonFields(tx), chainId) == Some(digest)
    requires SignAttempt(d, FromBytes(digest), nonceOf(d, digest)) == Signed(sig)
    ensures BuildRawTx(keccak, tx, chainId, d, nonceOf) == Encode(SignedList(tx, chainId, sig))
  {
    hide SigningDigest, CommonFields, SignAttempt, FromBytes, Encode, SignedList;
  }

  lemma Reads(keccak: Keccak, tx: Tx, chainId: nat, sig: Signature)
    requires Fits(SignedList(tx, chainId, sig)) && sig.r < N && sig.s < N && 0 <= sig.recId <= 1
    ensures Encode(SignedList(tx, chainId, sig)).Some?
    ensures ReadRawTx(keccak, Encode(SignedList(tx, chainId, sig)).value)
         == ReadSigned(keccak, CommonFields(tx), V(chainId, sig), sig.r, sig.s)
  {
    ReadSignedList(tx, chainId, sig);
    hide CommonFields, ReadSigned, FromBytes, Encode, Decode, V, Fits, FixedBytes, ToBytes;
  }

  /** The private key's signing list is recovered with the chain id, the digest that was
      signed, and the wallet's own address. */
  lemma RawTxRoundTrip(keccak: Keccak, tx: Tx, chainId: nat, d: int, nonceOf: NonceSource,
                       digest: seq<Byte>, sig: Signature)
    requires CurveFacts() && 1 <= d < N
    requires SigningDigest(keccak, CommonFields(tx), chainId) == Some(digest)
    requires NonceAbscissaBelowN(nonceOf(d, digest))
    requires SignAttempt(d, FromBytes(digest), nonceOf(d, digest)) == Signed(sig)
    requires Fits(SignedList(tx, chainId, sig))
    ensures EcMulSpec(d, G).Affine? && OnCurve(EcMulSpec(d, G))
    ensures var raw := BuildRawTx(keccak, tx, chainId, d, nonceOf);
      raw.Some? && ReadRawTx(keccak, raw.value)
                == Some(Reading(chainId, digest, Address(AddressOf(keccak, EcMulSpec(d, G)))))
  {
    hide SignAttempt, EcMulSpec, SatisfiesEquation, Recover, AssociativeMod, IsPrime, Encode, Fits, FromBytes, AddressOf, ReadSigned, ReadRawTx,
      SigningDigest, CommonFields, BuildRawTx, SignedList;
    Builds(keccak, tx, chainId, d, nonceOf, digest, sig);
    Reads(keccak, tx, chainId, sig);
    SignedReading(keccak, CommonFields(tx), chainId, sig.recId, sig.r, sig.s, digest);
    RecoverInvertsSign(d, FromBytes(digest), nonceOf(d, digest));
    PublicPoint(d);
  }

  // ----- the fields on the wire -----

  /** A field that holds this number, the highest byte first and without a leading zero. */
  predicate Holds(f: Item, n: nat) {
    f.Str? && FromBytes(f.b) == n && (f.b != [] ==> f.b[0] != 0)
  }

  /** Nine fields, of which the first six are the transaction's, in the order of EIP-155. */
  ghost predicate Carries(fields: seq<Item>, tx: Tx) {
    && |fields| == 9
    && Holds(fields[0], tx.nonce) && Holds(fields[1], tx.gasPrice) && Holds(fields[2], tx.gasLimit)
    && fields[3] == Str(tx.to) && Holds(fields[4], tx.value) && fields[5] == Str(tx.data)
  }

  /** A field of exactly 32 bytes that hold this number. */
  predicate HoldsIn32(f: Item, n: nat) {
    f.Str? && |f.b| == 32 && FromBytes(f.b) == n
  }

  lemma NumberHolds(n: nat)
    ensures Holds(Str(ToBytes(n)), n)
  {
    FromToBytes(n);
    NoLeadingZero(n);
  }

  lemma CommonCarries(tx: Tx, rest: seq<Item>)
    requires |rest| == 3
    ensures Carries(CommonFields(tx) + rest, tx) && (CommonFields(tx) + rest)[6..] == rest
    ensures (forall i :: 0 <= i < 3 ==> rest[i].Str?) ==> forall i :: 0 <= i < 9 ==> (CommonFields(tx) + rest)[i].Str?
  {
    NumberHolds(tx.nonce);
    NumberHolds(tx.gasPrice);
    NumberHolds(tx.gasLimit);
    NumberHolds(tx.value);
    hide Holds, ToBytes;
  }

  lemma StringsComeBack(items: seq<Item>)
    requires (forall i :: 0 <= i < |items| ==> items[i].Str?) && Encode(List(items)).Some?
    requires |Encode(List(items)).value| < LENGTH_LIMIT
    ensures Encode(List(items)).value != []
    ensures Decode(Encode(List(items)).value, 0) == (List(items), |Encode(List(items)).value|)
  {
    ShortEncodingFits(List(items));
    RoundTrip([], List(items), []);
    NormalStrings(items);
    hide Encode, Decode;
    assert [] + Encode(List(items)).value + [] == Encode(List(items)).value;
  }

  lemma SignedFields32(sig: Signature)
    requires sig.r < N && sig.s < N
    ensures HoldsIn32(Str(FixedBytes(sig.r, 32)), sig.r) && HoldsIn32(Str(FixedBytes(sig.s, 32)), sig.s)
  {
    OrderFits();
    FromFixedBytes(sig.r, 32);
    FromFixedBytes(sig.s, 32);
  }

  /** What the signed digest was taken of: a text m, whose hash SignAttempt signed. */
  lemma SignedText(keccak: Keccak, tx: Tx, chainId: nat, d: int, nonceOf: NonceSource)
      returns (m: seq<Byte>, sig: Signature)
    requires BuildRawTx(keccak, tx, chainId, d, nonceOf).Some?
    ensures Encode(SigningList(CommonFields(tx), chainId)) == Some(m)
    ensures SignAttempt(d, FromBytes(keccak(m)), nonceOf(d, keccak(m))) == Signed(sig)
    ensures BuildRawTx(keccak, tx, chainId, d, nonceOf) == Encode(SignedList(tx, chainId, sig))
  {
    hide SignAttempt, CommonFields, Encode, SignedList, SigningList, FromBytes;
    m := Encode(SigningList(CommonFields(tx), chainId)).value;
    sig := SignAttempt(d, FromBytes(keccak(m)), nonceOf(d, keccak(m))).sig;
  }

  lemma TailOf(all: seq<Item>, rest: seq<Item>)
    requires |all| == 9 && |rest| == 3 && all[6..] == rest
    ensures all[6] == rest[0] && all[7] == rest[1] && all[8] == rest[2] && all[7..] == [rest[1], rest[2]]
  {}

  lemma SigningListCarries(tx: Tx, chainId: nat, m: seq<Byte>)
    requires Encode(SigningList(CommonFields(tx), chainId)) == Some(m) && |m| < LENGTH_LIMIT
    ensures m != [] && Decode(m, 0).0.List? && Decode(m, 0).1 == |m|
    ensures var signed := Decode(m, 0).0.items;
      Carries(signed, tx) && Holds(signed[6], chainId) && signed[7..] == [Str([]), Str([])]
  {
    hide Holds, ToBytes, Decode, Encode, CommonFields;
    var rest := [Str(ToBytes(chainId)), Str([]), Str([])];
    CommonCarries(tx, rest);
    NumberHolds(chainId);
    var all := CommonFields(tx) + rest;
    StringsComeBack(all);
    TailOf(all, rest);
    hide Carries;
  }

  lemma SignedListCarries(tx: Tx, chainId: nat, sig: Signature, raw: seq<Byte>)
    requires sig.r < N && sig.s < N && 0 <= sig.recId <= 1
    requires Encode(SignedList(tx, chainId, sig)) == Some(raw) && |raw| < LENGTH_LIMIT
    ensures raw != [] && Decode(raw, 0).0.List? && Decode(raw, 0).1 == |raw|
    ensures var sent := Decode(raw, 0).0.items;
      Carries(sent, tx) && Holds(sent[6], sig.recId + 35 + 2 * chainId) && HoldsIn32(sent[7], sig.r) && HoldsIn32(sent[8], sig.s)
  {
    hide Holds, HoldsIn32, ToBytes, FixedBytes, Decode, Encode, CommonFields;
    var rest := [Str(ToBytes(V(chainId, sig))), Str(FixedBytes(sig.r, 32)), Str(FixedBytes(sig.s, 32))];
    CommonCarries(tx, rest);
    NumberHolds(V(chainId, sig));
    SignedFields32(sig);
    var all := CommonFields(tx) + rest;
    StringsComeBack(all);
    TailOf(all, rest);
    hide Carries;
  }

  lemma SignatureRange(d: int, z: nat, k: nat)
    requires SignAttempt(d, z, k).Signed?
    ensures var sig := SignAttempt(d, z, k).sig; sig.r < N && sig.s < N && 0 <= sig.recId <= 1
  {
    hide SignAttempt, PassRaises, EcMulSpec;
  }

  /** On the wire: a raw transaction decodes to nine fields, the transaction's six, v, r and s;
      what was hashed and signed decodes to the same six, the chain id and two empty strings. */
  lemma RawTxFields(keccak: Keccak, tx: Tx, chainId: nat, d: int, nonceOf: NonceSource) returns (m: seq<Byte>, sig: Signature)
    requires BuildRawTx(keccak, tx, chainId, d, nonceOf).Some?
    ensures SignAttempt(d, FromBytes(keccak(m)), nonceOf(d, keccak(m))) == Signed(sig)
    ensures |m| < LENGTH_LIMIT ==>
      && m != [] && Decode(m, 0).0.List? && Decode(m, 0).1 == |m| && Carries(Decode(m, 0).0.items, tx)
      && Holds(Decode(m, 0).0.items[6], chainId) && Decode(m, 0).0.items[7..] == [Str([]), Str([])]
    ensures var raw := BuildRawTx(keccak, tx, chainId, d, nonceOf).value;
      |raw| < LENGTH_LIMIT ==>
      && raw != [] && Decode(raw, 0).0.List? && Decode(raw, 0).1 == |raw| && Carries(Decode(raw, 0).0.items, tx)
      && Holds(Decode(raw, 0).0.items[6], sig.recId + 35 + 2 * chainId)
      && HoldsIn32(Decode(raw, 0).0.items[7], sig.r) && HoldsIn32(Decode(raw, 0).0.items[8], sig.s)
  {
    hide Decode, Encode, Holds, HoldsIn32, SigningList, SignedList, BuildRawTx, FromBytes, SignAttempt;
    m, sig := SignedText(keccak, tx, chainId, d, nonceOf);
    SignatureRange(d, FromBytes(keccak(m)), nonceOf(d, keccak(m)));
    if |m| < LENGTH_LIMIT { SigningListCarries(tx, chainId, m); }
    var raw := BuildRawTx(keccak, tx, chainId, d, nonceOf).value;
    if |raw| < LENGTH_LIMIT { SignedListCarries(tx, chainId, sig, raw); }
  }
}
