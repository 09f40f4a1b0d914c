/** The Orb's authenticated data: its wire encoding, the bytes that are signed, and the checks of
    `verify`. The encoding is that of proto3 (Protocol Buffers Encoding specification, sections
    "Base 128 Varints" and "Length-Delimited Records"): fields in number order, defaults left out. */
module OrbData {
  import opened Amounts
  import opened Sequences
  import opened Messages
  import opened AppData

  // ---- varints ----

  function Varint(n: nat): (r: Bytes)
    ensures r != []
  {
    if n < 128 then [n] else [n % 128 + 128] + Varint(n / 128)
  }

  /** Reads a varint of which `count` bytes are already read: at most ten bytes, 64 bits in all. */
  function ReadVarintFrom(b: Bytes, count: nat): (r: Option<(nat, Bytes)>)
    ensures r.Some? ==> |r.value.1| < |b|
  {
    if b == [] || count >= 10 then None
    else if b[0] < 128 then
      if count == 9 && b[0] >= 2 then None else Some((b[0], b[1..]))
    else
      match ReadVarintFrom(b[1..], count + 1)
      case None => None
      case Some((v, rest)) => Some((b[0] - 128 + 128 * v, rest))
  }

  function ReadVarint(b: Bytes): (r: Option<(nat, Bytes)>)
    ensures r.Some? ==> |r.value.1| < |b|
  {
    ReadVarintFrom(b, 0)
  }

  /** The values that fit into the bytes left after `count`. */
  function Cap(count: nat): nat
    requires count <= 9
    decreases 9 - count
  {
    if count == 9 then 2 else 128 * Cap(count + 1)
  }

  lemma CapIs64Bits()
    ensures Cap(0) == TWO_64
  {
    assert Cap(7) == 128 * (128 * 2);
    assert Cap(5) == 128 * (128 * Cap(7));
    assert Cap(3) == 128 * (128 * Cap(5));
    assert Cap(1) == 128 * (128 * Cap(3));
    assert Cap(0) == 128 * Cap(1);
  }

  lemma {:induction false} VarintFromReads(n: nat, count: nat, rest: Bytes)
    requires count <= 9 && n < Cap(count)
    ensures ReadVarintFrom(Varint(n) + rest, count) == Some((n, rest))
    decreases n
  {
    var b := Varint(n) + rest;
    if n < 128 {
      assert b[1..] == rest;
    } else {
      assert count < 9;
      VarintFromReads(n / 128, count + 1, rest);
      assert b[1..] == Varint(n / 128) + rest;
    }
  }

  /** A varint of a 64-bit integer reads back. */
  lemma VarintReads(n: U64, rest: Bytes)
    ensures ReadVarint(Varint(n) + rest) == Some((n as nat, rest))
  {
    CapIs64Bits();
    VarintFromReads(n, 0, rest);
  }

  /** The value of base-128 digits, the lowest first; the top bit of a byte is not part of it. */
  function Value(b: Bytes): nat {
    if b == [] then 0 else b[0] % 128 + 128 * Value(b[1..])
  }

  /** A varint's digits are its value; every byte but the last has the top bit; none is wasted. */
  lemma {:induction false} VarintDigits(n: nat)
    ensures var b := Varint(n);
            && Value(b) == n
            && (forall i :: 0 <= i < |b| ==> (b[i] >= 128 <==> i < |b| - 1))
            && (|b| > 1 ==> b[|b| - 1] != 0)
  {
    var b := Varint(n);
    if n >= 128 {
      VarintDigits(n / 128);
      assert b[1..] == Varint(n / 128);
      assert b[0] % 128 == n % 128;
      assert forall i :: 0 < i < |b| ==> b[i] == b[1..][i - 1];
    } else {
      assert Value(b[1..]) == 0;
    }
  }

  // ---- records ----

  datatype OrbAuthenticatedData = OrbAuthenticatedData(
    version: U32,
    ipcpEncryptionPublicKey: Bytes,
    orbNonce: Bytes,
    requestNonce: Bytes)

  const EMPTY := OrbAuthenticatedData(0, [], [], [])

  /** The wire types in use. */
  const VARINT: nat := 0
  const FIXED64: nat := 1
  const DELIMITED: nat := 2
  const FIXED32: nat := 5

  function FieldKey(tag: nat, wire: nat): Bytes {
    Varint(8 * tag + wire)
  }

  function EncodeVersion(version: U32): Bytes {
    if version == 0 then [] else FieldKey(1, VARINT) + Varint(version)
  }

  function EncodeBytes(tag: nat, v: Bytes): Bytes {
    if v == [] then [] else FieldKey(tag, DELIMITED) + Varint(|v|) + v
  }

  function Encode(d: OrbAuthenticatedData): Bytes {
    EncodeVersion(d.version) + EncodeBytes(2, d.ipcpEncryptionPublicKey)
    + EncodeBytes(3, d.orbNonce) + EncodeBytes(4, d.requestNonce)
  }

  /** One field as its bytes: the key, the length and the value; a default is left out. */
  function Tagged(key: Byte, v: Bytes): Bytes {
    if v == [] then [] else [key] + Varint(|v|) + v
  }

  /** The fields of the record by their key bytes, in number order. */
  lemma EncodedBytes(d: OrbAuthenticatedData)
    ensures Encode(d) == (if d.version == 0 then [] else [0x08] + Varint(d.version))
                         + Tagged(0x12, d.ipcpEncryptionPublicKey) + Tagged(0x1a, d.orbNonce)
                         + Tagged(0x22, d.requestNonce)
  {
  }

  /** A field this version of the record does not know. */
  datatype Unknown =
    | UVarint(tag: nat, value: U64)
    | UFixed64(tag: nat, word: Bytes)
    | UDelimited(tag: nat, body: Bytes)
    | UFixed32(tag: nat, word: Bytes)

  predicate WellFormed(u: Unknown) {
    && 5 <= u.tag < 0x2000_0000
    && (u.UFixed64? ==> |u.word| == 8)
    && (u.UDelimited? ==> |u.body| < TWO_64)
    && (u.UFixed32? ==> |u.word| == 4)
  }

  function EncodeUnknown(u: Unknown): Bytes {
    match u
    case UVarint(tag, value) => FieldKey(tag, VARINT) + Varint(value)
    case UFixed64(tag, word) => FieldKey(tag, FIXED64) + word
    case UDelimited(tag, body) => FieldKey(tag, DELIMITED) + (Varint(|body|) + body)
    case UFixed32(tag, word) => FieldKey(tag, FIXED32) + word
  }

  function EncodeUnknowns(us: seq<Unknown>): Bytes {
    if us == [] then [] else EncodeUnknown(us[0]) + EncodeUnknowns(us[1..])
  }

  /** A length and so many bytes. */
  function ReadDelimited(b: Bytes): (r: Option<(Bytes, Bytes)>)
    ensures r.Some? ==> |r.value.1| < |b|
  {
    match ReadVarint(b)
    case None => None
    case Some((n, rest)) => if |rest| < n then None else Some((rest[..n], rest[n..]))
  }

  function Skip(wire: nat, b: Bytes): (r: Option<Bytes>)
    ensures r.Some? ==> |r.value| <= |b|
  {
    if wire == VARINT then
      match ReadVarint(b) case None => None case Some((_, rest)) => Some(rest)
    else if wire == FIXED64 then
      if |b| < 8 then None else Some(b[8..])
    else if wire == DELIMITED then
      match ReadDelimited(b) case None => None case Some((_, rest)) => Some(rest)
    else if wire == FIXED32 then
      if |b| < 4 then None else Some(b[4..])
    else None
  }

  function WithBytes(d: OrbAuthenticatedData, tag: nat, v: Bytes): OrbAuthenticatedData {
    if tag == 2 then d.(ipcpEncryptionPublicKey := v)
    else if tag == 3 then d.(orbNonce := v)
    else d.(requestNonce := v)
  }

  /** Reads fields until the bytes are used up; a later field replaces an earlier one. */
  function Decode(b: Bytes, d: OrbAuthenticatedData): Option<OrbAuthenticatedData>
    decreases |b|
  {
    if b == [] then Some(d)
    else
      match ReadVarint(b)
      case None => None
      case Some((key, rest)) =>
        var tag, wire := key / 8, key % 8;
        if key >= TWO_32 || tag == 0 then None
        else if tag == 1 then
          if wire != VARINT then None
          else
            match ReadVarint(rest)
            case None => None
            case Some((v, rest)) => Decode(rest, d.(version := v % TWO_32))
        else if tag <= 4 then
          if wire != DELIMITED then None
          else
            match ReadDelimited(rest)
            case None => None
            case Some((v, rest)) => Decode(rest, WithBytes(d, tag, v))
        else
          match Skip(wire, rest)
          case None => None
          case Some(rest) => Decode(rest, d)
  }

  // ---- decoding undoes encoding ----

  lemma KeyReads(tag: nat, wire: nat, rest: Bytes)
    requires 0 < tag < 0x2000_0000 && wire < 8
    ensures ReadVarint(FieldKey(tag, wire) + rest) == Some((8 * tag + wire, rest))
    ensures (8 * tag + wire) / 8 == tag && (8 * tag + wire) % 8 == wire && 8 * tag + wire < TWO_32
  {
    VarintReads(8 * tag + wire, rest);
  }

  lemma DelimitedReads(v: Bytes, rest: Bytes)
    requires |v| < TWO_64
    ensures ReadDelimited(Varint(|v|) + v + rest) == Some((v, rest))
  {
    Assoc(Varint(|v|), v, rest);
    VarintReads(|v|, v + rest);
    SplitsBack(v, rest);
  }

  lemma DecodesVersion(b: Bytes, body: Bytes, rest: Bytes, version: U32, d: OrbAuthenticatedData)
    requires b != [] && ReadVarint(b) == Some((8 + VARINT, body)) && ReadVarint(body) == Some((version as nat, rest))
    ensures Decode(b, d) == Decode(rest, d.(version := version))
  {
  }

  lemma VersionDecodes(version: U32, d: OrbAuthenticatedData, rest: Bytes)
    requires d.version == 0
    ensures Decode(EncodeVersion(version) + rest, d) == Decode(rest, d.(version := version))
  {
    if version == 0 {
      assert EncodeVersion(version) + rest == rest;
      assert d.(version := 0) == d;
    } else {
      Assoc(FieldKey(1, VARINT), Varint(version), rest);
      KeyReads(1, VARINT, Varint(version) + rest);
      VarintReads(version, rest);
      DecodesVersion(EncodeVersion(version) + rest, Varint(version) + rest, rest, version, d);
    }
  }

  lemma BytesDecode(tag: nat, v: Bytes, d: OrbAuthenticatedData, rest: Bytes)
    requires 2 <= tag <= 4 && |v| < TWO_64 && WithBytes(d, tag, []) == d
    ensures Decode(EncodeBytes(tag, v) + rest, d) == Decode(rest, WithBytes(d, tag, v))
  {
    if v == [] {
      assert EncodeBytes(tag, v) + rest == rest;
    } else {
      var b := EncodeBytes(tag, v) + rest;
      assert b == FieldKey(tag, DELIMITED) + (Varint(|v|) + v + rest);
      KeyReads(tag, DELIMITED, Varint(|v|) + v + rest);
      DelimitedReads(v, rest);
      assert b != [];
    }
  }

  lemma DecodeSkips(b: Bytes, key: nat, body: Bytes, rest: Bytes, d: OrbAuthenticatedData)
    requires b != [] && ReadVarint(b) == Some((key, body)) && 40 <= key < TWO_32
    requires Skip(key % 8, body) == Some(rest)
    ensures Decode(b, d) == Decode(rest, d)
  {
  }

  /** A field with an unknown number whose body can be skipped changes nothing. */
  lemma FieldSkips(tag: nat, wire: nat, body: Bytes, d: OrbAuthenticatedData, rest: Bytes)
    requires 5 <= tag < 0x2000_0000 && wire < 8
    requires Skip(wire, body + rest) == Some(rest)
    ensures Decode(FieldKey(tag, wire) + body + rest, d) == Decode(rest, d)
  {
    Assoc(FieldKey(tag, wire), body, rest);
    KeyReads(tag, wire, body + rest);
    DecodeSkips(FieldKey(tag, wire) + body + rest, 8 * tag + wire, body + rest, rest, d);
  }

  lemma UnknownSkips(u: Unknown, d: OrbAuthenticatedData, rest: Bytes)
    requires WellFormed(u)
    ensures Decode(EncodeUnknown(u) + rest, d) == Decode(rest, d)
  {
    match u
    case UVarint(tag, value) =>
      VarintReads(value, rest);
      FieldSkips(tag, VARINT, Varint(value), d, rest);
    case UFixed64(tag, word) =>
      assert (word + rest)[8..] == rest;
      FieldSkips(tag, FIXED64, word, d, rest);
    case UDelimited(tag, body) =>
      DelimitedReads(body, rest);
      FieldSkips(tag, DELIMITED, Varint(|body|) + body, d, rest);
    case UFixed32(tag, word) =>
      assert (word + rest)[4..] == rest;
      FieldSkips(tag, FIXED32, word, d, rest);
  }

  lemma {:induction false} UnknownsSkip(us: seq<Unknown>, d: OrbAuthenticatedData)
    requires forall u <- us :: WellFormed(u)
    ensures Decode(EncodeUnknowns(us), d) == Some(d)
  {
    if us != [] {
      UnknownSkips(us[0], d, EncodeUnknowns(us[1..]));
      UnknownsSkip(us[1..], d);
    }
  }

  /** Every buffer fits into a 64-bit address space. */
  predicate Addressable(d: OrbAuthenticatedData) {
    |d.ipcpEncryptionPublicKey| < TWO_64 && |d.orbNonce| < TWO_64 && |d.requestNonce| < TWO_64
  }

  /** The two nonces are read into a record that has neither. */
  lemma NoncesDecode(d: OrbAuthenticatedData, orbNonce: Bytes, requestNonce: Bytes, rest: Bytes)
    requires |orbNonce| < TWO_64 && |requestNonce| < TWO_64 && d.orbNonce == d.requestNonce == []
    ensures Decode(EncodeBytes(3, orbNonce) + (EncodeBytes(4, requestNonce) + rest), d)
            == Decode(rest, d.(orbNonce := orbNonce, requestNonce := requestNonce))
  {
    BytesDecode(3, orbNonce, d, EncodeBytes(4, requestNonce) + rest);
    BytesDecode(4, requestNonce, WithBytes(d, 3, orbNonce), rest);
  }

  /** Version and key are read into the empty record. */
  lemma HeadDecodes(version: U32, key: Bytes, rest: Bytes)
    requires |key| < TWO_64
    ensures Decode(EncodeVersion(version) + (EncodeBytes(2, key) + rest), EMPTY)
            == Decode(rest, EMPTY.(version := version, ipcpEncryptionPublicKey := key))
  {
    VersionDecodes(version, EMPTY, EncodeBytes(2, key) + rest);
    BytesDecode(2, key, EMPTY.(version := version), rest);
  }

  lemma EncodeParts(d: OrbAuthenticatedData, rest: Bytes)
    ensures Encode(d) + rest
            == EncodeVersion(d.version) + (EncodeBytes(2, d.ipcpEncryptionPublicKey)
               + (EncodeBytes(3, d.orbNonce) + (EncodeBytes(4, d.requestNonce) + rest)))
  {
  }

  /** Decoding gives the record back, also when well-formed unknown fields follow. */
  lemma DecodesBack(d: OrbAuthenticatedData, us: seq<Unknown>)
    requires Addressable(d) && forall u <- us :: WellFormed(u)
    ensures Decode(Encode(d) + EncodeUnknowns(us), EMPTY) == Some(d)
  {
    var head := EMPTY.(version := d.version, ipcpEncryptionPublicKey := d.ipcpEncryptionPublicKey);
    var nonces := EncodeBytes(3, d.orbNonce) + (EncodeBytes(4, d.requestNonce) + EncodeUnknowns(us));
    EncodeParts(d, EncodeUnknowns(us));
    HeadDecodes(d.version, d.ipcpEncryptionPublicKey, nonces);
    NoncesDecode(head, d.orbNonce, d.requestNonce, EncodeUnknowns(us));
    UnknownsSkip(us, d);
  }

  // ---- what is signed ----

  /** The domain separator: "orb-authenticated-data-signature". */
  const DOMAIN: Bytes :=
    [111, 114, 98, 45, 97, 117, 116, 104, 101, 110, 116, 105, 99, 97, 116, 101,
     100, 45, 100, 97, 116, 97, 45, 115, 105, 103, 110, 97, 116, 117, 114, 101]

  lemma DomainReads()
    ensures |DOMAIN| == 32 == |"orb-authenticated-data-signature"|
    ensures forall i :: 0 <= i < 32 ==> DOMAIN[i] == "orb-authenticated-data-signature"[i] as int
  {
  }

  function SignedBytes(d: OrbAuthenticatedData): Bytes {
    DOMAIN + Encode(d)
  }

  /** The signed bytes determine all four fields. */
  lemma SignedBytesInjective(d: OrbAuthenticatedData, d': OrbAuthenticatedData)
    requires Addressable(d) && Addressable(d')
    ensures SignedBytes(d) == SignedBytes(d') <==> d == d'
  {
    if SignedBytes(d) == SignedBytes(d') {
      assert SignedBytes(d)[|DOMAIN|..] == Encode(d);
      assert SignedBytes(d')[|DOMAIN|..] == Encode(d');
      DecodesBack(d, []);
      DecodesBack(d', []);
      assert Encode(d) + EncodeUnknowns([]) == Encode(d') + EncodeUnknowns([]);
    }
  }

  datatype OrbError =
    | InvalidSignature
    | UnsupportedOrbVersion
    | InvalidOrbNonce
    | RequestNonceMismatch
    | UnexpectedRequestNonce

  datatype OrbVerdict = OrbAccepted | OrbRejected(error: OrbError)

  type Nonce = b: Bytes | |b| == 32 witness seq(32, _ => 0)

  /** Whether the attestation key accepts a signature of a message. */
  type Signed = (Bytes, Bytes) -> bool

  function VerifyOrb(valid: Signed, d: OrbAuthenticatedData, signature: Bytes, requestNonce: Option<Nonce>)
    : OrbVerdict
  {
    if !valid(SignedBytes(d), signature) then OrbRejected(InvalidSignature)
    else if d.version != 1 then OrbRejected(UnsupportedOrbVersion)
    else if |d.orbNonce| != 32 then OrbRejected(InvalidOrbNonce)
    else
      match requestNonce
      case Some(nonce) => if d.requestNonce != nonce then OrbRejected(RequestNonceMismatch) else OrbAccepted
      case None => if d.requestNonce != [] then OrbRejected(UnexpectedRequestNonce) else OrbAccepted
  }

  /** Every verdict of `verify`, for every record, signature and expected request nonce. */
  lemma OrbExactly(valid: Signed, d: OrbAuthenticatedData, signature: Bytes, requestNonce: Option<Nonce>)
    ensures var verdict := VerifyOrb(valid, d, signature, requestNonce);
            var signed := valid(DOMAIN + Encode(d), signature);
            var current := signed && d.version == 1;
            var complete := current && |d.orbNonce| == 32;
            && (verdict == OrbRejected(InvalidSignature) <==> !signed)
            && (verdict == OrbRejected(UnsupportedOrbVersion) <==> signed && d.version != 1)
            && (verdict == OrbRejected(InvalidOrbNonce) <==> current && |d.orbNonce| != 32)
            && (verdict == OrbRejected(RequestNonceMismatch) <==>
                  complete && requestNonce.Some? && d.requestNonce != requestNonce.value)
            && (verdict == OrbRejected(UnexpectedRequestNonce) <==>
                  complete && requestNonce.None? && d.requestNonce != [])
            && (verdict == OrbAccepted <==>
                  complete && d.requestNonce == if requestNonce.Some? then requestNonce.value else [])
  {
  }

  /** If the key only ever signed records in `issued`, then `verify` accepts only records in `issued`,
      and of these only the current version with a 32-byte Orb nonce and exactly the expected request
      nonce. */
  lemma AcceptedWasIssued(valid: Signed, d: OrbAuthenticatedData, signature: Bytes, requestNonce: Option<Nonce>,
                          issued: set<OrbAuthenticatedData>)
    requires Addressable(d) && forall x <- issued :: Addressable(x)
    requires forall m, s :: valid(m, s) ==> exists x <- issued :: m == SignedBytes(x)
    requires VerifyOrb(valid, d, signature, requestNonce) == OrbAccepted
    ensures d in issued && d.version == 1 && |d.orbNonce| == 32
    ensures d.requestNonce == (match requestNonce case Some(nonce) => nonce case None => [])
  {
    assert valid(SignedBytes(d), signature);
    var x :| x in issued && SignedBytes(d) == SignedBytes(x);
    SignedBytesInjective(d, x);
  }

  // ---- the app's announcement ----

  datatype AnnounceAppId = AnnounceAppId(
    protocolVersion: U64,
    appData: Option<AppAuthenticatedData>,
    hasIpcpPayload: bool,
    orbNonce: Bytes)

  const ORB_PAIRING_PROTOCOL_VERSION: nat := 4

  function VerifyAnnouncement(xof: Xof, a: AnnounceAppId, hash: Bytes, orbData: Option<OrbAuthenticatedData>)
    : Verdict
  {
    if a.appData.None? then Rejected(MissingAppData)
    else
      var app := VerifyOf(xof, a.appData.value, hash);
      if app != Accepted then app
      else if a.hasIpcpPayload && a.protocolVersion < ORB_PAIRING_PROTOCOL_VERSION then
        Rejected(UnboundIpcpPayload)
      else if orbData.Some? && a.protocolVersion >= ORB_PAIRING_PROTOCOL_VERSION
              && a.orbNonce != orbData.value.orbNonce then
        Rejected(OrbNonceMismatch)
      else Accepted
  }

  /** `hash` is a non-empty prefix of the output stream of a verifiable record. */
  predicate Matches(xof: Xof, d: AppAuthenticatedData, hash: Bytes) {
    hash != [] && Verifiable(d) && forall i :: 0 <= i < |hash| ==> hash[i] == xof(Preimage(d), i)
  }

  /** Every verdict on every announcement, in the order of the checks: its app data is there and matches
      the hash, an iPCP payload only comes from protocol version 4 on, and from that version on the nonce
      of the Orb's data is echoed, if the Orb sent one. */
  lemma AnnouncementExactly(xof: Xof, a: AnnounceAppId, hash: Bytes, orbData: Option<OrbAuthenticatedData>)
    ensures var verdict := VerifyAnnouncement(xof, a, hash, orbData);
            var matches := a.appData.Some? && Matches(xof, a.appData.value, hash);
            var bound := matches && (a.hasIpcpPayload ==> a.protocolVersion >= 4);
            var echoes := orbData.Some? && a.protocolVersion >= 4 ==> a.orbNonce == orbData.value.orbNonce;
            && (verdict == Rejected(MissingAppData) <==> a.appData.None?)
            && (a.appData.Some? && !matches ==> verdict == VerifyOf(xof, a.appData.value, hash) != Accepted)
            && (verdict == Rejected(UnboundIpcpPayload) <==> matches && !bound)
            && (verdict == Rejected(OrbNonceMismatch) <==> bound && !echoes)
            && (verdict == Accepted <==> bound && echoes)
  {
    if a.appData.Some? {
      AcceptedExactly(xof, a.appData.value, hash);
      VerdictExactly(xof, a.appData.value, hash);
    }
  }

  /** Two announcements accepted against one QR hash, with app data of version 1 or 2, carry the same
      app data, or their hashed bytes are a collision at the hash's length. From protocol version 4 on,
      and with an iPCP payload, each echoes the nonce of the Orb's data. */
  lemma AnnouncementsAgree(xof: Xof, a: AnnounceAppId, a': AnnounceAppId, hash: Bytes,
                           orbData: OrbAuthenticatedData)
    requires VerifyAnnouncement(xof, a, hash, Some(orbData)) == Accepted
    requires VerifyAnnouncement(xof, a', hash, Some(orbData)) == Accepted
    requires a.appData.Some? && a.appData.value.version != 0
    requires a'.appData.Some? && a'.appData.value.version != 0
    ensures var d, d' := a.appData.value, a'.appData.value;
            && Verifiable(d) && Verifiable(d')
            && (d == d' || Collision(xof, Preimage(d), Preimage(d'), |hash|))
    ensures a.protocolVersion >= 4 || a.hasIpcpPayload ==> a.orbNonce == orbData.orbNonce
    ensures a'.protocolVersion >= 4 || a'.hasIpcpPayload ==> a'.orbNonce == orbData.orbNonce
  {
    AcceptedTogether(xof, a.appData.value, a'.appData.value, hash);
  }

  /** The hypothesis on the versions is needed: next to every accepted announcement of version 1 or 2
      there is one with different app data, of version 0, that is accepted against the same hash by any
      hash function. */
  lemma VersionZeroBesides(xof: Xof, a: AnnounceAppId, hash: Bytes, orbData: Option<OrbAuthenticatedData>)
    requires VerifyAnnouncement(xof, a, hash, orbData) == Accepted && a.appData.Some? && a.appData.value.version != 0
    ensures Verifiable(a.appData.value)
    ensures var a' := a.(appData := Some(Downgraded(a.appData.value)));
            && a' != a && VerifyAnnouncement(xof, a', hash, orbData) == Accepted
            && !Collision(xof, Preimage(a.appData.value), Preimage(a'.appData.value), |hash|)
  {
    AcceptedExactly(xof, a.appData.value, hash);
    VersionDropped(a.appData.value);
  }
}
