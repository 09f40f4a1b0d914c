/** The authenticated app data: its three hash formats and what `verify` makes of them. Strings are
    their bytes. The hash is an extendable-output function (section 2.6 of the BLAKE3 paper), given as a
    parameter: for every input an unbounded stream of bytes, of which a caller reads a prefix. */
module AppData {
  import opened Sequences
  import opened Messages

  const TWO_32: nat := 0x1_0000_0000

  type U32 = n: int | 0 <= n < TWO_32

  /** An extendable-output function: byte `i` of the stream for an input. */
  type Xof = (Bytes, nat) -> Byte

  function Output(xof: Xof, input: Bytes, n: nat): Bytes {
    seq(n, (i: nat) => xof(input, i))
  }

  datatype AppAuthenticatedData = AppAuthenticatedData(
    selfCustodyPublicKey: Bytes,
    identityCommitment: Bytes,
    os: Bytes,
    osVersion: Bytes,
    pcpVersion: U32,
    version: U32,
    devicePublicKey: Bytes)

  const VERSION: U32 := 2
  const PCP_VERSION_DEFAULT: U32 := 2

  // ---- words and fields ----

  /** The value of four bytes, the lowest first. */
  function Word(b0: int, b1: int, b2: int, b3: int): int {
    b0 + 0x100 * b1 + 0x1_0000 * b2 + 0x100_0000 * b3
  }

  /** The little-endian bytes of a word. */
  function Le32(n: U32): (r: Bytes)
    ensures |r| == 4 && Word(r[0], r[1], r[2], r[3]) == n
  {
    [n % 256, n / 256 % 256, n / 256 / 256 % 256, n / 256 / 256 / 256]
  }

  function FromLe32(b: Bytes): U32
    requires |b| == 4
  {
    var b0: int, b1: int, b2: int, b3: int := b[0], b[1], b[2], b[3];
    b0 + 256 * (b1 + 256 * (b2 + 256 * b3))
  }

  lemma WordRoundTrip(n: U32)
    ensures FromLe32(Le32(n)) == n
  {
  }

  lemma LowByte(x: Byte, y: nat)
    ensures (x + 256 * y) % 256 == x && (x + 256 * y) / 256 == y
  {
  }

  lemma BytesRoundTrip(b: Bytes)
    requires |b| == 4
    ensures Le32(FromLe32(b)) == b
  {
    var b1: int, b2: int, b3: int := b[1], b[2], b[3];
    LowByte(b[0], b1 + 256 * (b2 + 256 * b3));
    LowByte(b[1], b2 + 256 * b3);
    LowByte(b[2], b3);
  }

  predicate Short(v: Bytes) {
    |v| < TWO_32
  }

  /** A field: its length as a word, then its bytes. */
  function Field(v: Bytes): Bytes
    requires Short(v)
  {
    Le32(|v|) + v
  }

  function Fields(vs: seq<Bytes>): Bytes
    requires forall v <- vs :: Short(v)
  {
    if vs == [] then [] else Fields(vs[..|vs| - 1]) + Field(vs[|vs| - 1])
  }

  function V1Fields(d: AppAuthenticatedData): seq<Bytes> {
    [d.selfCustodyPublicKey, d.identityCommitment, d.os, d.osVersion]
  }

  function V2Fields(d: AppAuthenticatedData): seq<Bytes> {
    [d.selfCustodyPublicKey, d.identityCommitment, d.os, d.osVersion, d.devicePublicKey]
  }

  function LegacyFields(d: AppAuthenticatedData): seq<Bytes> {
    [d.identityCommitment, d.selfCustodyPublicKey, d.osVersion, d.os]
  }

  predicate AllShort(vs: seq<Bytes>) {
    forall v <- vs :: Short(v)
  }

  /** What versions 1 and 2 hash: the fields, the pcp version and the version. */
  function Prefixed(vs: seq<Bytes>, d: AppAuthenticatedData): Bytes
    requires AllShort(vs)
  {
    Fields(vs) + Le32(d.pcpVersion) + Le32(d.version)
  }

  function Concat(vs: seq<Bytes>): Bytes {
    if vs == [] then [] else Concat(vs[..|vs| - 1]) + vs[|vs| - 1]
  }

  function PcpWord(pcpVersion: U32): Bytes {
    if pcpVersion == PCP_VERSION_DEFAULT then [] else Le32(pcpVersion)
  }

  /** What version 0 hashes: the bare fields, and the pcp version unless it is the default. */
  function Legacy(d: AppAuthenticatedData): Bytes {
    Concat(LegacyFields(d)) + PcpWord(d.pcpVersion)
  }

  // ---- hashing ----

  datatype HashError = WrongVersion(version: U32) | MissingDevicePublicKey

  /** A field of 4 GiB or more makes the program panic. */
  datatype Hashed = Hash(bytes: Bytes) | NoHash(error: HashError) | HashPanic

  function PrefixedHash(xof: Xof, vs: seq<Bytes>, d: AppAuthenticatedData, n: nat): Hashed {
    if AllShort(vs) then Hash(Output(xof, Prefixed(vs, d), n)) else HashPanic
  }

  function HashOf(xof: Xof, d: AppAuthenticatedData, n: nat): Hashed {
    if d.version != VERSION then NoHash(WrongVersion(d.version))
    else if d.devicePublicKey == [] then NoHash(MissingDevicePublicKey)
    else PrefixedHash(xof, V2Fields(d), d, n)
  }

  class Hasher {
    const xof: Xof
    var absorbed: Bytes

    constructor (xof: Xof)
      ensures this.xof == xof && absorbed == []
    {
      this.xof := xof;
      absorbed := [];
    }

    method Update(bytes: Bytes)
      modifies this
      ensures absorbed == old(absorbed) + bytes
    {
      absorbed := absorbed + bytes;
    }

    /** Feeds the fields with their lengths; it fails on the first that is too long. */
    method UpdateFields(vs: seq<Bytes>) returns (ok: bool)
      modifies this
      ensures ok <==> AllShort(vs)
      ensures ok ==> absorbed == old(absorbed) + Fields(vs)
    {
      var i := 0;
      while i < |vs|
        invariant i <= |vs| && AllShort(vs[..i])
        invariant absorbed == old(absorbed) + Fields(vs[..i])
      {
        if |vs[i]| >= TWO_32 {
          assert !Short(vs[i]);
          return false;
        }
        assert vs[..i + 1] == vs[..i] + [vs[i]];
        assert vs[..i + 1][..i] == vs[..i];
        Update(Le32(|vs[i]|));
        Update(vs[i]);
        i := i + 1;
      }
      assert vs[..i] == vs;
      return true;
    }

    /** Feeds the bare fields. */
    method UpdateBare(vs: seq<Bytes>)
      modifies this
      ensures absorbed == old(absorbed) + Concat(vs)
    {
      var i := 0;
      while i < |vs|
        invariant i <= |vs|
        invariant absorbed == old(absorbed) + Concat(vs[..i])
      {
        assert vs[..i + 1][..i] == vs[..i];
        Update(vs[i]);
        i := i + 1;
      }
      assert vs[..i] == vs;
    }

    /** Fills a buffer of `n` bytes from the output stream. */
    method Fill(n: nat) returns (output: array<Byte>)
      ensures fresh(output) && output[..] == Output(xof, absorbed, n)
    {
      output := new Byte[n];
      for i := 0 to n
        invariant forall k :: 0 <= k < i ==> output[k] == xof(absorbed, k)
      {
        output[i] := xof(absorbed, i);
      }
    }
  }

  /** The current format. */
  method ComputeHash(xof: Xof, d: AppAuthenticatedData, n: nat) returns (r: Hashed)
    ensures r == HashOf(xof, d, n)
  {
    var hasher := new Hasher(xof);
    if d.version != VERSION {
      return NoHash(WrongVersion(d.version));
    }
    if d.devicePublicKey == [] {
      return NoHash(MissingDevicePublicKey);
    }
    var ok := hasher.UpdateFields(V2Fields(d));
    if !ok {
      return HashPanic;
    }
    hasher.Update(Le32(d.pcpVersion));
    hasher.Update(Le32(d.version));
    var output := hasher.Fill(n);
    assert hasher.absorbed == Prefixed(V2Fields(d), d);
    return Hash(output[..]);
  }

  /** The version 1 format; it asserts the version. */
  method ComputeHashV1(xof: Xof, d: AppAuthenticatedData, n: nat) returns (r: Hashed)
    requires d.version == 1
    ensures r == PrefixedHash(xof, V1Fields(d), d, n)
  {
    var hasher := new Hasher(xof);
    var ok := hasher.UpdateFields(V1Fields(d));
    if !ok {
      return HashPanic;
    }
    hasher.Update(Le32(d.pcpVersion));
    hasher.Update(Le32(d.version));
    var output := hasher.Fill(n);
    assert hasher.absorbed == Prefixed(V1Fields(d), d);
    return Hash(output[..]);
  }

  /** The legacy format: the bare fields, and the pcp version unless it is 2. */
  method ComputeLegacyHash(xof: Xof, d: AppAuthenticatedData, n: nat) returns (r: Bytes)
    ensures var pcp := if d.pcpVersion == 2 then [] else Le32(d.pcpVersion);
            var input := d.identityCommitment + d.selfCustodyPublicKey + d.osVersion + d.os + pcp;
            |r| == n && forall i :: 0 <= i < n ==> r[i] == xof(input, i)
    ensures r == Output(xof, Legacy(d), n)
  {
    LegacyBytes(d);
    var hasher := new Hasher(xof);
    hasher.UpdateBare(LegacyFields(d));
    if d.pcpVersion != PCP_VERSION_DEFAULT {
      hasher.Update(Le32(d.pcpVersion));
    }
    var output := hasher.Fill(n);
    assert hasher.absorbed == Legacy(d);
    return output[..];
  }

  // ---- verifying ----

  datatype VerifyError =
    | EmptyHash
    | UnsupportedVersion(version: U32)
    | UnboundDevicePublicKey
    | Unhashable(hash: HashError)
    | Mismatch
    | MissingAppData
    | OrbNonceMismatch
    | UnboundIpcpPayload

  datatype Verdict = Accepted | Rejected(error: VerifyError) | Panicked

  function Compare(expected: Bytes, computed: Hashed): Verdict {
    match computed
    case Hash(bytes) => if bytes == expected then Accepted else Rejected(Mismatch)
    case NoHash(e) => Rejected(Unhashable(e))
    case HashPanic => Panicked
  }

  function VerifyOf(xof: Xof, d: AppAuthenticatedData, hash: Bytes): Verdict {
    if hash == [] then Rejected(EmptyHash)
    else if d.version == VERSION then Compare(hash, HashOf(xof, d, |hash|))
    else if d.version > VERSION then Rejected(UnsupportedVersion(d.version))
    else if d.devicePublicKey != [] then Rejected(UnboundDevicePublicKey)
    else if d.version == 1 then Compare(hash, PrefixedHash(xof, V1Fields(d), d, |hash|))
    else Compare(hash, Hash(Output(xof, Legacy(d), |hash|)))
  }

  /** `verify`, by the formats' own routines; it calls the version 1 routine only for version 1. */
  method Verify(xof: Xof, d: AppAuthenticatedData, hash: Bytes) returns (r: Verdict)
    ensures r == VerifyOf(xof, d, hash)
  {
    if hash == [] {
      return Rejected(EmptyHash);
    }
    var computed: Hashed;
    if d.version == VERSION {
      computed := ComputeHash(xof, d, |hash|);
    } else if d.version <= 1 && d.devicePublicKey != [] {
      return Rejected(UnboundDevicePublicKey);
    } else if d.version == 1 {
      computed := ComputeHashV1(xof, d, |hash|);
    } else if d.version == 0 {
      var bytes := ComputeLegacyHash(xof, d, |hash|);
      computed := Hash(bytes);
    } else {
      return Rejected(UnsupportedVersion(d.version));
    }
    match computed
    case HashPanic => return Panicked;
    case NoHash(e) => return Rejected(Unhashable(e));
    case Hash(bytes) =>
      if hash != bytes {
        return Rejected(Mismatch);
      }
      return Accepted;
  }

  /** Every field is shorter than 4 GiB. */
  predicate AllFit(d: AppAuthenticatedData) {
    && |d.selfCustodyPublicKey| < 0x1_0000_0000 && |d.identityCommitment| < 0x1_0000_0000
    && |d.os| < 0x1_0000_0000 && |d.osVersion| < 0x1_0000_0000 && |d.devicePublicKey| < 0x1_0000_0000
  }

  /** The records that some hash verifies. */
  predicate Verifiable(d: AppAuthenticatedData) {
    || (d.version == 2 && d.devicePublicKey != [] && AllFit(d))
    || (d.version == 1 && d.devicePublicKey == [] && AllFit(d))
    || (d.version == 0 && d.devicePublicKey == [])
  }

  /** What is hashed for a record. */
  function Preimage(d: AppAuthenticatedData): Bytes
    requires Verifiable(d)
  {
    if d.version == 2 then Prefixed(V2Fields(d), d)
    else if d.version == 1 then Prefixed(V1Fields(d), d)
    else Legacy(d)
  }

  lemma FieldsFive(a: Bytes, b: Bytes, c: Bytes, d: Bytes, e: Bytes)
    requires Short(a) && Short(b) && Short(c) && Short(d) && Short(e)
    ensures Fields([a, b, c, d]) == Le32(|a|) + a + (Le32(|b|) + b) + (Le32(|c|) + c) + (Le32(|d|) + d)
    ensures Fields([a, b, c, d, e]) == Fields([a, b, c, d]) + (Le32(|e|) + e)
  {
    var one, two, three, four := [a], [a, b], [a, b, c], [a, b, c, d];
    assert one[..0] == [] && two[..1] == one && three[..2] == two && four[..3] == three
           && [a, b, c, d, e][..4] == four;
    assert Fields(one[..0]) == [] && Fields(one) == [] + Field(a) == Field(a);
    assert Fields(two) == Fields(one) + Field(b);
    assert Fields(three) == Fields(two) + Field(c);
    assert Fields(four) == Fields(three) + Field(d);
  }

  /** What is hashed for versions 1 and 2: custody key, identity commitment, os and os version, from
      version 2 on the device key, each after its length; then the pcp version and the version. */
  lemma PrefixedBytes(d: AppAuthenticatedData)
    requires Verifiable(d) && d.version != 0
    ensures var key, commitment := d.selfCustodyPublicKey, d.identityCommitment;
            var device := if d.version == 2 then Le32(|d.devicePublicKey|) + d.devicePublicKey else [];
            Preimage(d) == Le32(|key|) + key + (Le32(|commitment|) + commitment) + (Le32(|d.os|) + d.os)
                           + (Le32(|d.osVersion|) + d.osVersion) + device + Le32(d.pcpVersion) + Le32(d.version)
  {
    FieldsFive(d.selfCustodyPublicKey, d.identityCommitment, d.os, d.osVersion, d.devicePublicKey);
  }

  /** What `hash` gives for every record: one of its two errors, a panic, or `n` bytes of the stream. */
  lemma HashExactly(xof: Xof, d: AppAuthenticatedData, n: nat)
    ensures var r := HashOf(xof, d, n);
            && (r == NoHash(WrongVersion(d.version)) <==> d.version != 2)
            && (r == NoHash(MissingDevicePublicKey) <==> d.version == 2 && d.devicePublicKey == [])
            && (r == HashPanic <==> d.version == 2 && d.devicePublicKey != [] && !AllFit(d))
            && (r.Hash? <==> d.version == 2 && d.devicePublicKey != [] && AllFit(d))
            && (r.Hash? ==> |r.bytes| == n && forall i :: 0 <= i < n ==> r.bytes[i] == xof(Preimage(d), i))
  {
    FitsExactly(d);
  }

  /** `verify` accepts exactly the non-empty prefixes of the output stream of a verifiable record. */
  lemma AcceptedExactly(xof: Xof, d: AppAuthenticatedData, hash: Bytes)
    ensures VerifyOf(xof, d, hash) == Accepted <==>
            hash != [] && Verifiable(d) && forall i :: 0 <= i < |hash| ==> hash[i] == xof(Preimage(d), i)
  {
    FitsExactly(d);
    if Verifiable(d) {
      var out := Output(xof, Preimage(d), |hash|);
      assert |out| == |hash|;
      if forall i :: 0 <= i < |hash| ==> hash[i] == xof(Preimage(d), i) {
        assert out == hash;
      } else {
        assert out != hash;
      }
    }
  }

  /** Every verdict of `verify`, for every record and hash: which error it gives, and when it panics. */
  lemma VerdictExactly(xof: Xof, d: AppAuthenticatedData, hash: Bytes)
    ensures var verdict := VerifyOf(xof, d, hash);
            && (verdict == Rejected(EmptyHash) <==> hash == [])
            && (verdict == Rejected(UnsupportedVersion(d.version)) <==> hash != [] && d.version > 2)
            && (verdict == Rejected(UnboundDevicePublicKey) <==>
                  hash != [] && d.version <= 1 && d.devicePublicKey != [])
            && (verdict == Rejected(Unhashable(MissingDevicePublicKey)) <==>
                  hash != [] && d.version == 2 && d.devicePublicKey == [])
            && (verdict == Panicked <==>
                  hash != [] && !AllFit(d)
                  && if d.version == 2 then d.devicePublicKey != [] else d.version == 1 && d.devicePublicKey == [])
            && (verdict == Rejected(Mismatch) <==>
                  hash != [] && Verifiable(d) && exists i :: 0 <= i < |hash| && hash[i] != xof(Preimage(d), i))
            && (verdict == Accepted <==>
                  hash != [] && Verifiable(d) && forall i :: 0 <= i < |hash| ==> hash[i] == xof(Preimage(d), i))
  {
    AcceptedExactly(xof, d, hash);
    FitsExactly(d);
    if Verifiable(d) { VerdictOfPreimage(xof, d, hash); }
  }

  lemma FitsExactly(d: AppAuthenticatedData)
    ensures AllShort(V2Fields(d)) <==> AllFit(d)
    ensures d.devicePublicKey == [] ==> (AllShort(V1Fields(d)) <==> AllFit(d))
  {
    var vs, vs' := V2Fields(d), V1Fields(d);
    assert vs[0] in vs && vs[1] in vs && vs[2] in vs && vs[3] in vs && vs[4] in vs;
    assert vs'[0] in vs' && vs'[1] in vs' && vs'[2] in vs' && vs'[3] in vs';
  }

  /** A hash can be shortened, down to one byte, without changing an acceptance. */
  lemma ShorterHashAccepted(xof: Xof, d: AppAuthenticatedData, hash: Bytes, k: nat)
    requires VerifyOf(xof, d, hash) == Accepted && 0 < k <= |hash|
    ensures VerifyOf(xof, d, hash[..k]) == Accepted
  {
    AcceptedExactly(xof, d, hash);
    AcceptedExactly(xof, d, hash[..k]);
  }

  /** Two verifiable records get the same verdict from every hash function on every hash exactly when
      the same bytes are hashed for them: that is all `verify` can tell apart. */
  lemma SameVerdicts(d: AppAuthenticatedData, d': AppAuthenticatedData)
    requires Verifiable(d) && Verifiable(d')
    ensures (forall xof: Xof, hash :: VerifyOf(xof, d, hash) == VerifyOf(xof, d', hash))
            <==> Preimage(d) == Preimage(d')
  {
    if Preimage(d) == Preimage(d') {
      forall xof: Xof, hash ensures VerifyOf(xof, d, hash) == VerifyOf(xof, d', hash) {
        VerdictOfPreimage(xof, d, hash);
        VerdictOfPreimage(xof, d', hash);
      }
    } else {
      var one := Preimage(d);
      var xof: Xof := (input: Bytes, i: nat) => if input == one then 1 else 0;
      AcceptedExactly(xof, d, [1]);
      AcceptedExactly(xof, d', [1]);
      assert VerifyOf(xof, d, [1]) == Accepted;
      assert xof(Preimage(d'), 0) == 0;
      assert VerifyOf(xof, d', [1]) != Accepted;
    }
  }

  lemma VerdictOfPreimage(xof: Xof, d: AppAuthenticatedData, hash: Bytes)
    requires Verifiable(d)
    ensures VerifyOf(xof, d, hash) ==
            if hash == [] then Rejected(EmptyHash)
            else if Output(xof, Preimage(d), |hash|) == hash then Accepted
            else Rejected(Mismatch)
  {
  }

  // ---- versions 1 and 2 ----

  /** Reads one field: its bytes and those after it. */
  function ReadField(b: Bytes): Option<(Bytes, Bytes)> {
    if |b| < 4 || |b| - 4 < FromLe32(b[..4]) then None
    else
      var n := FromLe32(b[..4]);
      Some((b[4..4 + n], b[4 + n..]))
  }

  /** Reads `k` length-prefixed fields: the fields and the bytes after them. */
  function ReadFields(b: Bytes, k: nat): Option<(seq<Bytes>, Bytes)> {
    if k == 0 then Some(([], b))
    else
      match ReadField(b)
      case None => None
      case Some((v, tail)) =>
        match ReadFields(tail, k - 1)
        case None => None
        case Some((vs, rest)) => Some(([v] + vs, rest))
  }

  /** Recovers a version 1 or 2 record from hashed bytes; the last word tells which. */
  function Parse(b: Bytes): Option<AppAuthenticatedData> {
    if |b| < 4 then None
    else
      var version := FromLe32(b[|b| - 4..]);
      if version != 1 && version != 2 then None
      else
        match ReadFields(b, if version == 2 then 5 else 4)
        case None => None
        case Some((vs, rest)) =>
          if |rest| != 8 || |vs| < 4 || (version == 2 && |vs| < 5) then None
          else
            var d := AppAuthenticatedData(vs[0], vs[1], vs[2], vs[3], FromLe32(rest[..4]), version,
                                          if version == 2 then vs[4] else []);
            if Verifiable(d) then Some(d) else None
  }

  lemma {:induction false} FieldsHead(v: Bytes, vs: seq<Bytes>)
    requires Short(v) && AllShort(vs)
    ensures AllShort([v] + vs) && Fields([v] + vs) == Field(v) + Fields(vs)
  {
    if vs == [] {
      assert [v] + vs == [v];
      assert Fields([v][..0]) == [];
    } else {
      var n := |vs| - 1;
      FieldsHead(v, vs[..n]);
      assert ([v] + vs)[..n + 1] == [v] + vs[..n];
      assert Field(v) + Fields(vs[..n]) + Field(vs[n]) == Field(v) + (Fields(vs[..n]) + Field(vs[n]));
    }
  }

  lemma FieldReads(v: Bytes, rest: Bytes)
    requires Short(v)
    ensures ReadField(Field(v) + rest) == Some((v, rest))
  {
    var b := Field(v) + rest;
    Assoc(Le32(|v|), v, rest);
    SplitsBack(Le32(|v|), v + rest);
    WordRoundTrip(|v|);
    assert b[4..4 + |v|] == v;
    assert b[4 + |v|..] == rest;
  }

  lemma ReadsHead(v: Bytes, vs: seq<Bytes>, rest: Bytes)
    requires Short(v) && AllShort(vs) && AllShort([v] + vs)
    requires ReadFields(Fields(vs) + rest, |vs|) == Some((vs, rest))
    ensures ReadFields(Fields([v] + vs) + rest, |vs| + 1) == Some(([v] + vs, rest))
  {
    FieldsHead(v, vs);
    Assoc(Field(v), Fields(vs), rest);
    FieldReads(v, Fields(vs) + rest);
  }

  lemma {:induction false} ReadsBack(vs: seq<Bytes>, rest: Bytes)
    requires AllShort(vs)
    ensures ReadFields(Fields(vs) + rest, |vs|) == Some((vs, rest))
    decreases |vs|
  {
    if vs == [] {
      assert Fields(vs) + rest == rest;
    } else {
      assert vs == [vs[0]] + vs[1..];
      ReadsBack(vs[1..], rest);
      ReadsHead(vs[0], vs[1..], rest);
    }
  }

  /** Parsing recovers every verifiable record of version 1 or 2 from the bytes hashed for it. */
  lemma ParseInverts(d: AppAuthenticatedData)
    requires Verifiable(d) && d.version != 0
    ensures Parse(Preimage(d)) == Some(d)
  {
    var vs := if d.version == 2 then V2Fields(d) else V1Fields(d);
    var rest := Le32(d.pcpVersion) + Le32(d.version);
    var b := Preimage(d);
    assert b == Fields(vs) + rest;
    assert b[|b| - 4..] == Le32(d.version);
    assert rest[..4] == Le32(d.pcpVersion);
    WordRoundTrip(d.version);
    WordRoundTrip(d.pcpVersion);
    ReadsBack(vs, rest);
  }

  lemma FieldExact(b: Bytes)
    requires ReadField(b).Some?
    ensures var (v, tail) := ReadField(b).value;
            Short(v) && Field(v) + tail == b
  {
    var n := FromLe32(b[..4]);
    BytesRoundTrip(b[..4]);
    assert Field(b[4..4 + n]) == b[..4] + b[4..4 + n];
    assert b == b[..4] + b[4..4 + n] + b[4 + n..];
  }

  lemma {:induction false} ReadsExactly(b: Bytes, k: nat)
    requires ReadFields(b, k).Some?
    ensures var (vs, rest) := ReadFields(b, k).value;
            |vs| == k && AllShort(vs) && b == Fields(vs) + rest
    decreases k
  {
    if k == 0 {
      assert Fields([]) + b == b;
    } else {
      var (v, tail) := ReadField(b).value;
      FieldExact(b);
      ReadsExactly(tail, k - 1);
      var (vs, rest) := ReadFields(tail, k - 1).value;
      FieldsHead(v, vs);
      Assoc(Field(v), Fields(vs), rest);
    }
  }

  /** Fields followed by two words are the prefixed form of a record with these words. */
  lemma TwoWords(vs: seq<Bytes>, rest: Bytes, d: AppAuthenticatedData)
    requires AllShort(vs) && |rest| == 8
    requires d.pcpVersion == FromLe32(rest[..4]) && d.version == FromLe32(rest[4..])
    ensures Prefixed(vs, d) == Fields(vs) + rest
  {
    BytesRoundTrip(rest[..4]);
    BytesRoundTrip(rest[4..]);
    assert rest == rest[..4] + rest[4..];
    assert Fields(vs) + (rest[..4] + rest[4..]) == Fields(vs) + rest[..4] + rest[4..];
  }

  /** Parsing accepts nothing else: what it accepts is what is hashed for the record it returns. */
  lemma ParseExact(b: Bytes)
    requires Parse(b).Some?
    ensures var d := Parse(b).value;
            Verifiable(d) && d.version != 0 && Preimage(d) == b
  {
    var d := Parse(b).value;
    var k := if d.version == 2 then 5 else 4;
    ReadsExactly(b, k);
    var (vs, rest) := ReadFields(b, k).value;
    assert b[|b| - 4..] == rest[4..];
    TwoWords(vs, rest, d);
    if d.version == 2 {
      assert vs == V2Fields(d);
    } else {
      assert vs == V1Fields(d);
    }
  }

  /** The hashed bytes of versions 1 and 2 determine the record, within and across versions. */
  lemma PreimageInjective(d: AppAuthenticatedData, d': AppAuthenticatedData)
    requires Verifiable(d) && d.version != 0 && Verifiable(d') && d'.version != 0
    ensures Preimage(d) == Preimage(d') <==> d == d'
  {
    ParseInverts(d);
    ParseInverts(d');
  }

  /** Distinct inputs with the same first `n` output bytes. */
  predicate Collision(xof: Xof, a: Bytes, b: Bytes, n: nat) {
    a != b && Output(xof, a, n) == Output(xof, b, n)
  }

  /** Two records of version 1 or 2 accepted against one hash are equal, or the bytes hashed for them
      are a collision at the hash's length. */
  lemma AcceptedTogether(xof: Xof, d: AppAuthenticatedData, d': AppAuthenticatedData, hash: Bytes)
    requires VerifyOf(xof, d, hash) == Accepted && VerifyOf(xof, d', hash) == Accepted
    requires d.version != 0 && d'.version != 0
    ensures Verifiable(d) && Verifiable(d')
    ensures d == d' || Collision(xof, Preimage(d), Preimage(d'), |hash|)
  {
    AcceptedExactly(xof, d, hash);
    AcceptedExactly(xof, d', hash);
    VerdictOfPreimage(xof, d, hash);
    VerdictOfPreimage(xof, d', hash);
    PreimageInjective(d, d');
  }

  // ---- version 0 ----

  /** What is hashed for version 0: commitment, custody key, os version, os, and the pcp version if it is
      not 2. */
  lemma LegacyBytes(d: AppAuthenticatedData)
    ensures Concat(LegacyFields(d)) == d.identityCommitment + d.selfCustodyPublicKey + d.osVersion + d.os
    ensures Legacy(d) == d.identityCommitment + d.selfCustodyPublicKey + d.osVersion + d.os
                         + if d.pcpVersion == 2 then [] else Le32(d.pcpVersion)
  {
    ConcatFour(d.identityCommitment, d.selfCustodyPublicKey, d.osVersion, d.os);
  }

  /** The same by position: each field at its offset, and then nothing or a word that reads as the pcp
      version. */
  lemma LegacyByPosition(d: AppAuthenticatedData)
    ensures var b := Legacy(d);
            var i := |d.identityCommitment|;
            var j := i + |d.selfCustodyPublicKey|;
            var k := j + |d.osVersion|;
            var l := k + |d.os|;
            && |b| == l + (if d.pcpVersion == 2 then 0 else 4)
            && b[..i] == d.identityCommitment && b[i..j] == d.selfCustodyPublicKey
            && b[j..k] == d.osVersion && b[k..l] == d.os
            && (d.pcpVersion != 2 ==> Word(b[l], b[l + 1], b[l + 2], b[l + 3]) == d.pcpVersion)
  {
    LegacyBytes(d);
    var b, i := Legacy(d), |d.identityCommitment|;
    var j := i + |d.selfCustodyPublicKey|;
    var k := j + |d.osVersion|;
    assert b[..i] == d.identityCommitment && b[i..j] == d.selfCustodyPublicKey;
    assert b[j..k] == d.osVersion && b[k..k + |d.os|] == d.os;
    assert d.pcpVersion != 2 ==> b[k + |d.os|..] == Le32(d.pcpVersion);
  }

  /** The concatenated fields agree and so do the pcp versions, or one record has the default pcp
      version and its fields end in the other's pcp word. */
  predicate SameConcat(d: AppAuthenticatedData, d': AppAuthenticatedData) {
    var a := d.identityCommitment + d.selfCustodyPublicKey + d.osVersion + d.os;
    var b := d'.identityCommitment + d'.selfCustodyPublicKey + d'.osVersion + d'.os;
    || (d.pcpVersion == d'.pcpVersion && a == b)
    || (d.pcpVersion == 2 && d'.pcpVersion != 2 && a == b + Le32(d'.pcpVersion))
    || (d.pcpVersion != 2 && d'.pcpVersion == 2 && b == a + Le32(d.pcpVersion))
  }

  /** What the legacy format forgets: exactly the split into fields, and where a pcp word comes from. */
  lemma LegacyLoss(d: AppAuthenticatedData, d': AppAuthenticatedData)
    ensures Legacy(d) == Legacy(d') <==> SameConcat(d, d')
  {
    LegacyBytes(d);
    LegacyBytes(d');
    var a, b := Concat(LegacyFields(d)), Concat(LegacyFields(d'));
    var p, q := PcpWord(d.pcpVersion), PcpWord(d'.pcpVersion);
    assert a + [] == a && b + [] == b;
    if d.pcpVersion != 2 && d'.pcpVersion != 2 && a + p == b + q {
      assert |a| == |b|;
      SplitsBack(a, p);
      SplitsBack(b, q);
      WordRoundTrip(d.pcpVersion);
      WordRoundTrip(d'.pcpVersion);
    } else if d.pcpVersion == d'.pcpVersion && a + p == b + q {
      assert |a| == |b|;
      SplitsBack(a, p);
      SplitsBack(b, q);
    }
  }

  /** A record that `verify` treats as legacy and can accept. */
  predicate IsLegacy(d: AppAuthenticatedData) {
    d.version == 0 && d.devicePublicKey == []
  }

  /** So two version 0 records get the same verdict from every hash function on every hash exactly
      when they are re-splittings of each other. */
  lemma ResplitSameVerdict(d: AppAuthenticatedData, d': AppAuthenticatedData)
    requires IsLegacy(d) && IsLegacy(d')
    ensures (forall xof: Xof, hash :: VerifyOf(xof, d, hash) == VerifyOf(xof, d', hash)) <==> SameConcat(d, d')
  {
    SameVerdicts(d, d');
    LegacyLoss(d, d');
  }

  /** The default record that keeps another's pcp word at the end of its os. */
  function Absorbing(d: AppAuthenticatedData): AppAuthenticatedData {
    d.(os := d.os + Le32(d.pcpVersion), pcpVersion := PCP_VERSION_DEFAULT)
  }

  /** Every version 0 record with another pcp version has a different record with the same verdicts. */
  lemma PcpWordAbsorbed(d: AppAuthenticatedData)
    requires IsLegacy(d) && d.pcpVersion != PCP_VERSION_DEFAULT
    ensures Absorbing(d) != d
    ensures forall xof: Xof, hash :: VerifyOf(xof, d, hash) == VerifyOf(xof, Absorbing(d), hash)
  {
    var vs, vs' := LegacyFields(d), LegacyFields(Absorbing(d));
    assert vs'[..3] == vs[..3];
    Assoc(Concat(vs[..3]), d.os, Le32(d.pcpVersion));
    assert SameConcat(d, Absorbing(d));
    ResplitSameVerdict(d, Absorbing(d));
  }

  // ---- across version 0 ----

  /** The version 0 record whose one field is everything that is hashed for `d`. */
  function Downgraded(d: AppAuthenticatedData): AppAuthenticatedData
    requires Verifiable(d)
  {
    AppAuthenticatedData([], Preimage(d), [], [], PCP_VERSION_DEFAULT, 0, [])
  }

  lemma ConcatFour(a: Bytes, b: Bytes, c: Bytes, d: Bytes)
    ensures Concat([a, b, c, d]) == a + b + c + d
  {
    var one, two, three := [a], [a, b], [a, b, c];
    assert one[..0] == [] && two[..1] == one && three[..2] == two && [a, b, c, d][..3] == three;
    assert Concat(one) == a && Concat(two) == a + b && Concat(three) == a + b + c;
  }

  lemma OneField(b: Bytes)
    ensures Concat([b, [], [], []]) == b && Concat([[], b, [], []]) == b
  {
    ConcatFour(b, [], [], []);
    ConcatFour([], b, [], []);
  }

  /** Every record of version 1 or 2 has a version 0 record with the same verdicts from every hash
      function: `AcceptedTogether` cannot do without its hypothesis. */
  lemma VersionDropped(d: AppAuthenticatedData)
    requires Verifiable(d) && d.version != 0
    ensures IsLegacy(Downgraded(d)) && Downgraded(d) != d && Preimage(Downgraded(d)) == Preimage(d)
    ensures forall xof: Xof, hash :: VerifyOf(xof, d, hash) == VerifyOf(xof, Downgraded(d), hash)
  {
    OneField(Preimage(d));
    assert Preimage(d) + [] == Preimage(d);
    SameVerdicts(d, Downgraded(d));
  }

  /** Over all versions together a record is told apart from every other one only when nothing at all is
      hashed for it. */
  lemma AloneExactly(d: AppAuthenticatedData)
    requires Verifiable(d)
    ensures (exists d' :: Verifiable(d') && d' != d && Preimage(d') == Preimage(d)) <==> Preimage(d) != []
  {
    var b := Preimage(d);
    if b != [] {
      OneField(b);
      assert b + [] == b;
      var d1 := AppAuthenticatedData(b, [], [], [], PCP_VERSION_DEFAULT, 0, []);
      assert Preimage(d1) == b && Preimage(Downgraded(d)) == b;
      assert d1 != d || Downgraded(d) != d;
    } else {
      forall d' | Verifiable(d') && Preimage(d') == [] ensures d' == d {
        NothingHashed(d);
        NothingHashed(d');
      }
    }
  }

  lemma NothingHashed(d: AppAuthenticatedData)
    requires Verifiable(d) && Preimage(d) == []
    ensures d == AppAuthenticatedData([], [], [], [], PCP_VERSION_DEFAULT, 0, [])
  {
    ConcatFour(d.identityCommitment, d.selfCustodyPublicKey, d.osVersion, d.os);
  }
}
