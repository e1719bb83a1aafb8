/** The CRX3 container: which key a package belongs to, and the identifier that follows from it. */
module CrxContainer {
  import opened Wrappers
  import opened Bytes
  import opened Protobuf

  /** A parsed package: its identifier, its key, and where its archive begins. */
  datatype Crx = Crx(id: seq<byte>, publicKey: seq<byte>, zipAt: nat)

  datatype CrxError = NotCrx | Version(version: u32) | PastEnd | NoSignedHeader | NoCrxId | IdLength(len: nat)
      | Inconsistent

  /** SHA-256, which is not part of this model: any function with digests of 32 octets. */
  type Digest = f: seq<byte> -> seq<byte> | forall s :: |f(s)| == 32 witness s => seq(32, _ => 0)

  const MAGIC: seq<byte> := [67, 114, 50, 52]

  /** The octets of a digest an identifier is made of. */
  function IdOf(sha: Digest, key: seq<byte>): (id: seq<byte>)
    ensures |id| == 16
  {
    sha(key)[..16]
  }

  // ----- identifiers -----

  /** The identifier of a digest: two of the first sixteen letters for each octet, high nibble first. */
  function Letters(d: seq<byte>): (s: seq<byte>)
    ensures |s| == 2 * |d|
  {
    if d == [] then [] else [97 + d[0] / 16, 97 + d[0] % 16] + Letters(d[1..])
  }

  predicate IsLetters(s: seq<byte>) {
    forall i | 0 <= i < |s| :: 97 <= s[i] <= 112
  }

  function Unletters(s: seq<byte>): seq<byte>
    requires |s| % 2 == 0 && IsLetters(s)
  {
    if s == [] then [] else [(s[0] - 97) * 16 + (s[1] - 97)] + Unletters(s[2..])
  }

  /** An identifier is all letters from a to p, and names one digest. */
  lemma {:induction false} LettersBack(d: seq<byte>)
    ensures IsLetters(Letters(d)) && Unletters(Letters(d)) == d
    decreases |d|
  {
    if d != [] {
      LettersBack(d[1..]);
      LetterPair(d[0], d[1..], Letters(d[1..]));
      assert d == [d[0]] + d[1..];
    }
  }

  lemma LetterPair(b: byte, rest: seq<byte>, s: seq<byte>)
    requires |s| % 2 == 0 && IsLetters(s) && Unletters(s) == rest
    ensures IsLetters([97 + b / 16, 97 + b % 16] + s) && Unletters([97 + b / 16, 97 + b % 16] + s) == [b] + rest
  {
    var all := [97 + b / 16, 97 + b % 16] + s;
    assert all[2..] == s;
    assert b / 16 * 16 + b % 16 == b;
  }

  method IdFromKey(key: seq<byte>, sha: Digest) returns (id: seq<byte>)
    ensures id == Letters(IdOf(sha, key))
  {
    var digest := sha(key);
    id := WriteLetters(digest[..16]);
  }

  method WriteLetters(d: seq<byte>) returns (s: seq<byte>)
    ensures s == Letters(d)
  {
    s := [];
    for i := 0 to |d|
      invariant s + Letters(d[i..]) == Letters(d)
    {
      assert d[i..][0] == d[i] && d[i..][1..] == d[i + 1..];
      s := s + [97 + d[i] / 16, 97 + d[i] % 16];
    }
  }

  // ----- the container -----

  /** The key each proof carries, if it carries one. */
  function KeysOf(proofs: seq<seq<byte>>): seq<Option<seq<byte>>> {
    seq(|proofs|, i requires 0 <= i < |proofs| => FirstField(proofs[i], 1))
  }

  /** The identifier was derived from this key. */
  predicate Derives(key: Option<seq<byte>>, id: seq<byte>, sha: Digest) {
    key.Some? && IdOf(sha, key.value) == id
  }

  /** The first key the identifier was derived from. */
  function Chosen(keys: seq<Option<seq<byte>>>, id: seq<byte>, sha: Digest): Option<seq<byte>> {
    if keys == [] then None else if Derives(keys[0], id, sha) then keys[0] else Chosen(keys[1..], id, sha)
  }

  function VersionOf(bytes: seq<byte>): u32
    requires |bytes| >= 16
  {
    Le32(bytes[4], bytes[5], bytes[6], bytes[7])
  }

  function HeaderLen(bytes: seq<byte>): nat
    requires |bytes| >= 16
  {
    Le32(bytes[8], bytes[9], bytes[10], bytes[11])
  }

  function ParseHeader(header: seq<byte>, sha: Digest): Result<(seq<byte>, seq<byte>), CrxError> {
    match FirstField(header, 10000)
    case None => Err(NoSignedHeader)
    case Some(signed) =>
      match FirstField(signed, 1)
      case None => Err(NoCrxId)
      case Some(id) =>
        if |id| != 16 then Err(IdLength(|id|))
        else
          match Chosen(KeysOf(Fields(header, 2)), id, sha)
          case None => Err(Inconsistent)
          case Some(key) => Ok((id, key))
  }

  /** Where the archive begins: behind the magic, the version, the header's length and the header. */
  function ArchiveAt(bytes: seq<byte>): (r: Result<nat, CrxError>)
    ensures r.Ok? ==> 12 <= r.value <= |bytes|
  {
    if |bytes| < 16 || bytes[..4] != MAGIC then Err(NotCrx)
    else if VersionOf(bytes) != 3 then Err(Version(VersionOf(bytes)))
    else if 12 + HeaderLen(bytes) > |bytes| then Err(PastEnd)
    else Ok(12 + HeaderLen(bytes))
  }

  function Parse(bytes: seq<byte>, sha: Digest): Result<Crx, CrxError> {
    match ArchiveAt(bytes)
    case Err(e) => Err(e)
    case Ok(zipAt) => Located(ParseHeader(bytes[12..zipAt], sha), zipAt, sha)
  }

  /** What a header was found to say, and where the archive behind it begins. */
  function Located(found: Result<(seq<byte>, seq<byte>), CrxError>, zipAt: nat, sha: Digest): Result<Crx, CrxError> {
    match found
    case Err(e) => Err(e)
    case Ok((_, key)) => Ok(Crx(Letters(IdOf(sha, key)), key, zipAt))
  }

  method ParseCrx(bytes: seq<byte>, sha: Digest) returns (r: Result<Crx, CrxError>)
    ensures r == Parse(bytes, sha)
  {
    var archive := ArchiveAt(bytes);
    match archive {
      case Err(e) => return Err(e);
      case Ok(zipAt) =>
        var found := FindKey(bytes[12..zipAt], sha);
        match found {
          case Err(e) => return Err(e);
          case Ok((_, key)) =>
            var id := IdFromKey(key, sha);
            return Ok(Crx(id, key, zipAt));
        }
    }
  }

  method FindKey(header: seq<byte>, sha: Digest) returns (r: Result<(seq<byte>, seq<byte>), CrxError>)
    ensures r == ParseHeader(header, sha)
  {
    var signed := ScanFields(header, 10000);
    if signed == [] {
      return Err(NoSignedHeader);
    }
    var ids := ScanFields(signed[0], 1);
    if ids == [] {
      return Err(NoCrxId);
    }
    var id := ids[0];
    if |id| != 16 {
      return Err(IdLength(|id|));
    }
    var proofs := ScanFields(header, 2);
    var key := ChooseKey(proofs, id, sha);
    r := match key { case None => Err(Inconsistent) case Some(k) => Ok((id, k)) };
  }

  method ChooseKey(proofs: seq<seq<byte>>, id: seq<byte>, sha: Digest) returns (key: Option<seq<byte>>)
    requires |id| == 16
    ensures key == Chosen(KeysOf(proofs), id, sha)
  {
    ghost var all := KeysOf(proofs);
    for i := 0 to |proofs|
      invariant Chosen(all[i..], id, sha) == Chosen(all, id, sha)
    {
      assert all[i..][0] == all[i] && all[i..][1..] == all[i + 1..];
      key := FirstKey(proofs[i]);
      assert key == all[i];
      if key.Some? && sha(key.value)[..16] == id {
        return;
      }
    }
    key := None;
  }

  method FirstKey(proof: seq<byte>) returns (key: Option<seq<byte>>)
    ensures key == FirstField(proof, 1)
  {
    var keys := ScanFields(proof, 1);
    key := if keys == [] then None else Some(keys[0]);
  }

  // ----- what a parsed package is -----

  /** The key chosen is one the identifier was derived from, and none before it is; no key is chosen
      exactly when none is. */
  lemma {:induction false} ChosenMeans(keys: seq<Option<seq<byte>>>, id: seq<byte>, sha: Digest)
    ensures Chosen(keys, id, sha).None? <==> forall key <- keys :: !Derives(key, id, sha)
    ensures Chosen(keys, id, sha).Some? ==>
              exists i | 0 <= i < |keys| ::
                && Derives(keys[i], id, sha) && keys[i] == Chosen(keys, id, sha)
                && forall j | 0 <= j < i :: !Derives(keys[j], id, sha)
    decreases |keys|
  {
    if keys != [] {
      var rest := keys[1..];
      ChosenMeans(rest, id, sha);
      assert keys == [keys[0]] + rest;
      if Derives(keys[0], id, sha) {
        assert keys[0] in keys;
      } else if Chosen(rest, id, sha).Some? {
        var i :| 0 <= i < |rest| && Derives(rest[i], id, sha) && rest[i] == Chosen(rest, id, sha)
                 && forall j | 0 <= j < i :: !Derives(rest[j], id, sha);
        assert keys[i + 1] == rest[i];
        forall j | 0 <= j < i + 1 ensures !Derives(keys[j], id, sha) {
          if j > 0 {
            assert keys[j] == rest[j - 1];
          }
        }
      }
    }
  }

  /** A package that parses says who it is: its identifier is the one its signed header carries,
      written in letters, and its key is one whose digest begins with it. */
  lemma ParsedIsConsistent(bytes: seq<byte>, sha: Digest)
    requires Parse(bytes, sha).Ok?
    ensures var c := Parse(bytes, sha).value;
            && 12 <= c.zipAt <= |bytes|
            && var signed := FirstField(bytes[12..c.zipAt], 10000);
               signed.Some? && FirstField(signed.value, 1) == Some(IdOf(sha, c.publicKey))
               && c.id == Letters(FirstField(signed.value, 1).value)
  {
    var header := bytes[12..12 + HeaderLen(bytes)];
    var id := FirstField(FirstField(header, 10000).value, 1).value;
    ChosenMeans(KeysOf(Fields(header, 2)), id, sha);
  }

  // ----- building one -----

  /** The octets are a CRX3 package of this header and this archive. */
  predicate IsPackage(p: seq<byte>, header: seq<byte>, zip: seq<byte>) {
    && |p| >= 16 && p[..4] == MAGIC && VersionOf(p) == 3
    && HeaderLen(p) == |header| && p[12..] == header + zip
  }

  /** Every header whose length fits its 32 bits, and every archive, make one. */
  lemma PackageOf(header: seq<byte>, zip: seq<byte>) returns (p: seq<byte>)
    requires 4 <= |header| < U32
    ensures IsPackage(p, header, zip)
  {
    var len := Le32Bytes(|header|);
    p := Packed(len, header, zip);
  }

  lemma Packed(len: seq<byte>, header: seq<byte>, zip: seq<byte>) returns (p: seq<byte>)
    requires |len| == 4 && Le32(len[0], len[1], len[2], len[3]) == |header| >= 4
    ensures IsPackage(p, header, zip)
  {
    p := MAGIC + [3, 0, 0, 0] + len + (header + zip);
  }

  /** The key each proof message carries, if it carries one. */
  function MessageKeys(proofs: seq<seq<Field>>): seq<Option<seq<byte>>> {
    seq(|proofs|, i requires 0 <= i < |proofs| => KeyIn(proofs[i]))
  }

  function KeyIn(proof: seq<Field>): Option<seq<byte>> {
    var keys := Payloads(proof, 1);
    if keys == [] then None else Some(keys[0])
  }

  /** The first key among proof messages that the identifier was derived from. */
  function ChosenMessage(proofs: seq<seq<Field>>, id: seq<byte>, sha: Digest): Option<seq<byte>> {
    Chosen(MessageKeys(proofs), id, sha)
  }

  function Encoded(messages: seq<seq<Field>>): seq<seq<byte>> {
    if messages == [] then [] else [EncodeMessage(messages[0])] + Encoded(messages[1..])
  }

  predicate AllFit(m: seq<Field>) {
    forall f <- m :: Fits(f)
  }

  lemma {:induction false} EncodedAt(messages: seq<seq<Field>>, i: nat)
    requires i < |messages|
    ensures |Encoded(messages)| == |messages| && Encoded(messages)[i] == EncodeMessage(messages[i])
    decreases |messages|
  {
    EncodedSize(messages);
    if i > 0 {
      EncodedAt(messages[1..], i - 1);
    }
  }

  lemma {:induction false} EncodedSize(messages: seq<seq<Field>>)
    ensures |Encoded(messages)| == |messages|
    decreases |messages|
  {
    if messages != [] {
      EncodedSize(messages[1..]);
    }
  }

  lemma KeyBack(proof: seq<Field>)
    requires AllFit(proof)
    ensures FirstField(EncodeMessage(proof), 1) == KeyIn(proof)
  {
    FieldsRoundTrip(proof, 1);
  }

  lemma KeysBack(proofs: seq<seq<Field>>)
    requires forall p <- proofs :: AllFit(p)
    ensures KeysOf(Encoded(proofs)) == MessageKeys(proofs)
  {
    EncodedSize(proofs);
    forall i | 0 <= i < |proofs| ensures KeysOf(Encoded(proofs))[i] == MessageKeys(proofs)[i] {
      assert proofs[i] in proofs;
      EncodedAt(proofs, i);
      KeyBack(proofs[i]);
    }
  }

  /** Any CRX3 package, whatever other fields its header has and however many proofs: parsing its
      octets chooses what its messages say, and the archive begins where it was put. */
  lemma PackageRoundTrip(package: seq<byte>, header: seq<Field>, zip: seq<byte>, sha: Digest,
                         proofs: seq<seq<Field>>, signed: seq<Field>, id: seq<byte>, zipAt: nat)
    requires AllFit(header) && AllFit(signed) && (forall p <- proofs :: AllFit(p))
    requires IsPackage(package, EncodeMessage(header), zip) && zipAt == 12 + |EncodeMessage(header)|
    requires Payloads(header, 2) == Encoded(proofs)
    requires Payloads(header, 10000) != [] && Payloads(header, 10000)[0] == EncodeMessage(signed)
    requires Payloads(signed, 1) != [] && Payloads(signed, 1)[0] == id && |id| == 16
    ensures zipAt <= |package| && package[zipAt..] == zip
    ensures ChosenMessage(proofs, id, sha).None? ==> Parse(package, sha) == Err(Inconsistent)
    ensures ChosenMessage(proofs, id, sha).Some? ==>
              Parse(package, sha) == Ok(Crx(Letters(id), ChosenMessage(proofs, id, sha).value, zipAt))
  {
    var h, chosen := EncodeMessage(header), ChosenMessage(proofs, id, sha);
    ArchiveIs(package, h, zip);
    HeaderBack(header, sha, proofs, signed, id, chosen);
    ParseIs(package, h, zipAt, sha, if chosen.None? then Err(Inconsistent) else Ok((id, chosen.value)));
    ChosenDerives(MessageKeys(proofs), id, sha, chosen);
  }

  lemma ParseIs(p: seq<byte>, header: seq<byte>, zipAt: nat, sha: Digest,
                found: Result<(seq<byte>, seq<byte>), CrxError>)
    requires ArchiveAt(p) == Ok(zipAt) && p[12..zipAt] == header && ParseHeader(header, sha) == found
    ensures Parse(p, sha) == Located(found, zipAt, sha)
  {
  }

  lemma ChosenDerives(keys: seq<Option<seq<byte>>>, id: seq<byte>, sha: Digest, chosen: Option<seq<byte>>)
    requires chosen == Chosen(keys, id, sha)
    ensures chosen.Some? ==> IdOf(sha, chosen.value) == id
  {
    ChosenMeans(keys, id, sha);
  }

  lemma ArchiveIs(p: seq<byte>, header: seq<byte>, zip: seq<byte>)
    requires IsPackage(p, header, zip)
    ensures ArchiveAt(p) == Ok(12 + |header|)
    ensures p[12..12 + |header|] == header && p[12 + |header|..] == zip
  {
    assert |p| == 12 + |p[12..]|;
    assert p[12..12 + |header|] == p[12..][..|header|];
    assert p[12 + |header|..] == p[12..][|header|..];
  }

  lemma HeaderBack(header: seq<Field>, sha: Digest, proofs: seq<seq<Field>>, signed: seq<Field>, id: seq<byte>,
                   chosen: Option<seq<byte>>)
    requires AllFit(header) && AllFit(signed) && (forall p <- proofs :: AllFit(p))
    requires Payloads(header, 2) == Encoded(proofs)
    requires Payloads(header, 10000) != [] && Payloads(header, 10000)[0] == EncodeMessage(signed)
    requires Payloads(signed, 1) != [] && Payloads(signed, 1)[0] == id && |id| == 16
    requires chosen == ChosenMessage(proofs, id, sha)
    ensures ParseHeader(EncodeMessage(header), sha)
         == if chosen.None? then Err(Inconsistent) else Ok((id, chosen.value))
  {
    FieldsRoundTrip(header, 10000);
    FieldsRoundTrip(header, 2);
    FieldsRoundTrip(signed, 1);
    KeysBack(proofs);
  }

  /** Proofs of other keys come to nothing: the key the identifier was derived from is found behind
      any number of them. */
  lemma {:induction false} DecoysAreSkipped(decoys: seq<seq<Field>>, key: seq<byte>, sha: Digest)
    requires forall d <- decoys :: Payloads(d, 1) == [] || IdOf(sha, Payloads(d, 1)[0]) != IdOf(sha, key)
    ensures ChosenMessage(decoys + [[Delim(1, key)]], IdOf(sha, key), sha) == Some(key)
    decreases |decoys|
  {
    var all := decoys + [[Delim(1, key)]];
    if decoys == [] {
      assert Payloads(all[0], 1) == [key];
      assert MessageKeys(all)[0] == Some(key);
    } else {
      assert all[1..] == decoys[1..] + [[Delim(1, key)]];
      assert decoys[0] in decoys;
      assert MessageKeys(all)[1..] == MessageKeys(all[1..]) && MessageKeys(all)[0] == KeyIn(decoys[0]);
      DecoysAreSkipped(decoys[1..], key, sha);
    }
  }
}
