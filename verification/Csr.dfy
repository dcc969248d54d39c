/**
 The certificate signing request (client/sentinel-service/src/csr.rs), section 4 of
 RFC 2986, and the key and signature encodings it carries (client/sentinel-service/src/devicekey/mod.rs).
 */
module Csr {
  import opened Prelude
  import opened Media
  import opened Der

  const ECDSA_WITH_SHA256: seq<u32> := [1, 2, 840, 10045, 4, 3, 2]
  const COMMON_NAME: seq<u32> := [2, 5, 4, 3]
  const ORGANIZATION: seq<u32> := [2, 5, 4, 10]
  const ID_EC_PUBLIC_KEY: seq<u32> := [1, 2, 840, 10045, 2, 1]
  const PRIME256V1: seq<u32> := [1, 2, 840, 10045, 3, 1, 7]

  /** "MagickVoice Sentinel" */
  const ORGANIZATION_NAME: Bytes :=
    [0x4D, 0x61, 0x67, 0x69, 0x63, 0x6B, 0x56, 0x6F, 0x69, 0x63, 0x65, 0x20,
     0x53, 0x65, 0x6E, 0x74, 0x69, 0x6E, 0x65, 0x6C]

  function Oid(arcs: seq<u32>): Bytes
    requires Legal(arcs)
  {
    Tlv(OID, OidBody(arcs))
  }

  function Spki(point: Bytes): Bytes
  {
    Sequence([Sequence([Oid(ID_EC_PUBLIC_KEY), Oid(PRIME256V1)]), BitString(point)])
  }

  function Attribute(arcs: seq<u32>, value: Bytes): Bytes
    requires Legal(arcs)
  {
    Sequence([Oid(arcs), Utf8String(value)])
  }

  function Rdn(arcs: seq<u32>, value: Bytes): Bytes
    requires Legal(arcs)
  {
    Set([Attribute(arcs, value)])
  }

  function Name(commonName: Bytes): Bytes
  {
    Sequence([Rdn(COMMON_NAME, commonName), Rdn(ORGANIZATION, ORGANIZATION_NAME)])
  }

  function RequestInfo(spki: Bytes, commonName: Bytes): Bytes
  {
    Sequence([SmallInteger(0), Name(commonName), spki, Tlv(CONTEXT_0, [])])
  }

  function Algorithm(): Bytes { Sequence([Oid(ECDSA_WITH_SHA256)]) }

  function Request(info: Bytes, signature: Bytes): Bytes { Sequence([info, Algorithm(), BitString(signature)]) }

  /** A device key: its public point, if it has one to give, and its signatures. */
  datatype Key = Key(point: Option<Bytes>, sign: Bytes -> Option<Bytes>)

  function BuildCsr(key: Key, commonName: Bytes): Option<Bytes>
  {
    match key.point
    case None => None
    case Some(point) =>
      var info := RequestInfo(Spki(point), commonName);
      match key.sign(info)
      case None => None
      case Some(signature) => Some(Request(info, signature))
  }

  function SignatureDer(raw: Bytes): Option<Bytes>
  {
    if |raw| != 64 then None
    else Some(Sequence([Tlv(INTEGER, IntegerBody(raw[..32])), Tlv(INTEGER, IntegerBody(raw[32..]))]))
  }

  // --------------------------------------------------------- reading it back

  /** `b` is one element of the given tag whose body is exactly these members. */
  ghost predicate Holds(b: Bytes, tag: byte, members: seq<Bytes>)
  {
    ReadTlv(b).Some? && ReadTlv(b).value.tag == tag && ReadTlv(b).value.rest == [] &&
    Split(ReadTlv(b).value.body) == Some(members)
  }

  ghost predicate ReadsAs(b: Bytes, tag: byte, body: Bytes) { ReadTlv(b) == Some(Item(tag, body, [])) }

  lemma {:induction false} MemberFits(members: seq<Bytes>, i: nat)
    requires i < |members|
    ensures |members[i]| <= |Concat(members)|
  {
    if i > 0 {
      MemberFits(members[1..], i - 1);
    }
  }

  lemma ElementOf(tag: byte, body: Bytes)
    requires |Tlv(tag, body)| < USIZE_LIMIT
    ensures IsElement(Tlv(tag, body)) && ReadsAs(Tlv(tag, body), tag, body)
  {
    hide ReadTlv, Length;
    TlvReads(tag, body, []);
    assert Tlv(tag, body) + [] == Tlv(tag, body);
  }

  lemma HoldsMembers(tag: byte, members: seq<Bytes>)
    requires |Tlv(tag, Concat(members))| < USIZE_LIMIT
    requires forall i :: 0 <= i < |members| ==> IsElement(members[i])
    ensures Holds(Tlv(tag, Concat(members)), tag, members) && IsElement(Tlv(tag, Concat(members)))
  {
    hide ReadTlv, Tlv, Split, Concat, IsElement;
    SplitOfConcat(members);
    ElementOf(tag, Concat(members));
  }

  lemma OidHolds(arcs: seq<u32>)
    requires Legal(arcs) && |Oid(arcs)| < USIZE_LIMIT
    ensures IsElement(Oid(arcs)) && ReadsAs(Oid(arcs), OID, OidBody(arcs)) && ReadOid(OidBody(arcs)) == Some(arcs)
  {
    hide ReadTlv, OidBody, ReadOid, Length, IsElement;
    ElementOf(OID, OidBody(arcs));
    OidReads(arcs, []);
  }

  lemma MembersFit(tag: byte, members: seq<Bytes>, i: nat)
    requires i < |members| && |Tlv(tag, Concat(members))| < USIZE_LIMIT
    ensures |members[i]| < USIZE_LIMIT
  {
    hide Length, Concat;
    MemberFits(members, i);
  }

  /** The key is the named curve and the point, and nothing else. */
  lemma SpkiHolds(point: Bytes)
    requires |Spki(point)| < USIZE_LIMIT
    ensures var algorithm := Sequence([Oid(ID_EC_PUBLIC_KEY), Oid(PRIME256V1)]);
            && Holds(Spki(point), SEQUENCE, [algorithm, BitString(point)])
            && Holds(algorithm, SEQUENCE, [Oid(ID_EC_PUBLIC_KEY), Oid(PRIME256V1)])
            && ReadOid(OidBody(ID_EC_PUBLIC_KEY)) == Some([1, 2, 840, 10045, 2, 1])
            && ReadOid(OidBody(PRIME256V1)) == Some([1, 2, 840, 10045, 3, 1, 7])
            && ReadsAs(BitString(point), BIT_STRING, [0x00] + point)
    ensures IsElement(Spki(point))
  {
    hide Tlv, Concat, Holds, ReadsAs, OidBody, ReadOid, IsElement;
    var inner := [Oid(ID_EC_PUBLIC_KEY), Oid(PRIME256V1)];
    var outer := [Sequence(inner), BitString(point)];
    MembersFit(SEQUENCE, outer, 0);
    MembersFit(SEQUENCE, outer, 1);
    MembersFit(SEQUENCE, inner, 0);
    MembersFit(SEQUENCE, inner, 1);
    OidHolds(ID_EC_PUBLIC_KEY);
    OidHolds(PRIME256V1);
    HoldsMembers(SEQUENCE, inner);
    ElementOf(BIT_STRING, [0x00] + point);
    HoldsMembers(SEQUENCE, outer);
  }

  lemma RdnHolds(arcs: seq<u32>, value: Bytes)
    requires Legal(arcs) && |Rdn(arcs, value)| < USIZE_LIMIT
    ensures Holds(Rdn(arcs, value), SET, [Attribute(arcs, value)])
    ensures Holds(Attribute(arcs, value), SEQUENCE, [Oid(arcs), Utf8String(value)])
    ensures ReadOid(OidBody(arcs)) == Some(arcs) && ReadsAs(Utf8String(value), UTF8_STRING, value)
    ensures IsElement(Rdn(arcs, value))
  {
    hide Tlv, Concat, Holds, ReadsAs, OidBody, ReadOid, IsElement;
    var inner := [Oid(arcs), Utf8String(value)];
    MembersFit(SET, [Sequence(inner)], 0);
    MembersFit(SEQUENCE, inner, 0);
    MembersFit(SEQUENCE, inner, 1);
    OidHolds(arcs);
    ElementOf(UTF8_STRING, value);
    HoldsMembers(SEQUENCE, inner);
    HoldsMembers(SET, [Sequence(inner)]);
  }

  lemma NameHolds(commonName: Bytes)
    requires |Name(commonName)| < USIZE_LIMIT
    ensures Holds(Name(commonName), SEQUENCE, [Rdn(COMMON_NAME, commonName), Rdn(ORGANIZATION, ORGANIZATION_NAME)])
    ensures |Rdn(COMMON_NAME, commonName)| < USIZE_LIMIT && |Rdn(ORGANIZATION, ORGANIZATION_NAME)| < USIZE_LIMIT
    ensures ReadOid(OidBody(COMMON_NAME)) == Some([2, 5, 4, 3]) && ReadOid(OidBody(ORGANIZATION)) == Some([2, 5, 4, 10])
    ensures IsElement(Name(commonName))
  {
    hide Tlv, Concat, Holds, Rdn, IsElement;
    var rdns := [Rdn(COMMON_NAME, commonName), Rdn(ORGANIZATION, ORGANIZATION_NAME)];
    MembersFit(SEQUENCE, rdns, 0);
    MembersFit(SEQUENCE, rdns, 1);
    RdnHolds(COMMON_NAME, commonName);
    RdnHolds(ORGANIZATION, ORGANIZATION_NAME);
    HoldsMembers(SEQUENCE, rdns);
  }

  /** What is signed: version 0, the name, the key, and an empty set of attributes. */
  lemma InfoHolds(point: Bytes, commonName: Bytes)
    requires |RequestInfo(Spki(point), commonName)| < USIZE_LIMIT
    ensures Holds(RequestInfo(Spki(point), commonName), SEQUENCE,
                  [SmallInteger(0), Name(commonName), Spki(point), Tlv(CONTEXT_0, [])])
    ensures ReadsAs(SmallInteger(0), INTEGER, [0]) && ReadsAs(Tlv(CONTEXT_0, []), CONTEXT_0, [])
    ensures |Name(commonName)| < USIZE_LIMIT && |Spki(point)| < USIZE_LIMIT
    ensures IsElement(RequestInfo(Spki(point), commonName))
  {
    hide *;
    var members := InfoMembers(Spki(point), commonName);
    InfoIs(Spki(point), commonName);
    MembersFit(SEQUENCE, members, 0);
    MembersFit(SEQUENCE, members, 1);
    MembersFit(SEQUENCE, members, 2);
    MembersFit(SEQUENCE, members, 3);
    ElementOf(INTEGER, [0]);
    NameHolds(commonName);
    SpkiHolds(point);
    ElementOf(CONTEXT_0, []);
    HoldsMembers(SEQUENCE, members);
  }

  function InfoMembers(spki: Bytes, commonName: Bytes): seq<Bytes>
  {
    [SmallInteger(0), Name(commonName), spki, Tlv(CONTEXT_0, [])]
  }

  lemma InfoIs(spki: Bytes, commonName: Bytes)
    ensures RequestInfo(spki, commonName) == Tlv(SEQUENCE, Concat(InfoMembers(spki, commonName)))
    ensures InfoMembers(spki, commonName) == [Tlv(INTEGER, [0]), Name(commonName), spki, Tlv(CONTEXT_0, [])]
    ensures SmallInteger(0) == Tlv(INTEGER, [0])
  {
    hide Tlv, Concat, Name;
  }

  lemma AlgorithmHolds()
    requires |Algorithm()| < USIZE_LIMIT
    ensures Holds(Algorithm(), SEQUENCE, [Oid(ECDSA_WITH_SHA256)])
    ensures ReadOid(OidBody(ECDSA_WITH_SHA256)) == Some([1, 2, 840, 10045, 4, 3, 2])
    ensures IsElement(Algorithm())
  {
    hide Tlv, Concat, Holds, ReadsAs, OidBody, ReadOid, IsElement;
    MembersFit(SEQUENCE, [Oid(ECDSA_WITH_SHA256)], 0);
    OidHolds(ECDSA_WITH_SHA256);
    HoldsMembers(SEQUENCE, [Oid(ECDSA_WITH_SHA256)]);
  }

  /**
   A request splits into exactly three members: the very bytes that were signed, the
   algorithm with no parameters, and the signature. There is none if the key cannot sign.
   */
  lemma RequestHolds(key: Key, commonName: Bytes)
    requires BuildCsr(key, commonName).Some? ==> |BuildCsr(key, commonName).value| < USIZE_LIMIT
    ensures BuildCsr(key, commonName).Some? <==>
            key.point.Some? && key.sign(RequestInfo(Spki(key.point.value), commonName)).Some?
    ensures BuildCsr(key, commonName).Some? ==>
              var info := RequestInfo(Spki(key.point.value), commonName);
              var signature := key.sign(info).value;
              && Holds(BuildCsr(key, commonName).value, SEQUENCE, [info, Algorithm(), BitString(signature)])
              && ReadsAs(BitString(signature), BIT_STRING, [0x00] + signature)
              && |info| < USIZE_LIMIT && |Algorithm()| < USIZE_LIMIT
  {
    hide Tlv, Concat, Holds, ReadsAs, RequestInfo, Spki, Algorithm, IsElement, Split, ReadTlv;
    if BuildCsr(key, commonName).Some? {
      var info := RequestInfo(Spki(key.point.value), commonName);
      var signature := key.sign(info).value;
      var members := [info, Algorithm(), BitString(signature)];
      MembersFit(SEQUENCE, members, 0);
      MembersFit(SEQUENCE, members, 1);
      MembersFit(SEQUENCE, members, 2);
      InfoHolds(key.point.value, commonName);
      AlgorithmHolds();
      ElementOf(BIT_STRING, [0x00] + signature);
      HoldsMembers(SEQUENCE, members);
    }
  }

  /** A fixed-width signature becomes its two integers, each in its one legal form. */
  lemma SignatureHolds(raw: Bytes)
    ensures SignatureDer(raw).Some? <==> |raw| == 64
    ensures |raw| == 64 ==>
              var r, s := IntegerBody(raw[..32]), IntegerBody(raw[32..]);
              && Holds(SignatureDer(raw).value, SEQUENCE, [Tlv(INTEGER, r), Tlv(INTEGER, s)])
              && ReadsAs(Tlv(INTEGER, r), INTEGER, r) && ReadsAs(Tlv(INTEGER, s), INTEGER, s)
              && ShortestInteger(r) && Signed(r) == FromBe(raw[..32])
              && ShortestInteger(s) && Signed(s) == FromBe(raw[32..])
  {
    hide Tlv, Concat, Holds, ReadsAs, IntegerBody, ShortestInteger, Signed, FromBe, IsElement, ReadTlv;
    if |raw| == 64 {
      var r, s := IntegerBody(raw[..32]), IntegerBody(raw[32..]);
      IntegerReads(raw[..32], []);
      IntegerReads(raw[32..], []);
      ShortBody(raw[..32]);
      ShortBody(raw[32..]);
      ShortTlv(INTEGER, r);
      ShortTlv(INTEGER, s);
      ElementOf(INTEGER, r);
      ElementOf(INTEGER, s);
      TwoMembers(Tlv(INTEGER, r), Tlv(INTEGER, s));
      ShortTlv(SEQUENCE, Concat([Tlv(INTEGER, r), Tlv(INTEGER, s)]));
      HoldsMembers(SEQUENCE, [Tlv(INTEGER, r), Tlv(INTEGER, s)]);
    }
  }

  lemma ShortBody(m: Bytes)
    requires |m| == 32
    ensures |IntegerBody(m)| <= 33
  {
    TrimmedValue(m);
  }

  lemma ShortTlv(tag: byte, body: Bytes)
    requires |body| < 0x80
    ensures |Tlv(tag, body)| == 2 + |body|
  {
  }

  lemma TwoMembers(a: Bytes, b: Bytes)
    ensures Concat([a, b]) == a + b
  {
    assert [a, b][1..] == [b];
    assert Concat([b]) == b + Concat([]);
    assert b + [] == b;
  }
}
