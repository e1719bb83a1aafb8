/** Bundles, from the packing side and from the opening side: whose key opens what, and what is on disk
    afterwards. Tar, gzip and the ciphers are their own inverses here, under the right key only. */
module Bundles {
  import opened Wrappers
  import opened Bytes
  import opened BundleTree

  type Key = seq<byte>

  // ----- the data key, written out -----

  const DIGITS := "0123456789abcdef"

  function Hex(k: Key): (s: string)
    ensures |s| == 2 * |k|
  {
    if k == [] then [] else [DIGITS[k[0] as int / 16], DIGITS[k[0] as int % 16]] + Hex(k[1..])
  }

  function DigitOf(c: char): Option<nat> {
    if '0' <= c <= '9' then Some(c as int - '0' as int)
    else if 'a' <= c <= 'f' then Some(c as int - 'a' as int + 10)
    else if 'A' <= c <= 'F' then Some(c as int - 'A' as int + 10)
    else None
  }

  /** Two characters read in base sixteen, as the standard library reads them: either case, and a
      plus sign before a single digit. */
  function OctetOf(a: char, b: char): Option<byte> {
    match (DigitOf(a), DigitOf(b))
    case (Some(x), Some(y)) => Some((16 * x + y) as byte)
    case (None, Some(y)) => if a == '+' then Some(y as byte) else None
    case _ => None
  }

  function OctetsOf(s: string): Option<Key>
    requires |s| % 2 == 0
  {
    if s == [] then Some([])
    else
      match OctetOf(s[0], s[1])
      case None => None
      case Some(b) => Prepend([b], OctetsOf(s[2..]))
  }

  function Prepend(front: Key, rest: Option<Key>): Option<Key> {
    match rest case None => None case Some(k) => Some(front + k)
  }

  function Unhex(s: string): Option<Key> {
    if |s| != 64 then None else OctetsOf(s)
  }

  method WriteHex(k: Key) returns (s: string)
    ensures s == Hex(k)
  {
    s := "";
    for i := 0 to |k|
      invariant s + Hex(k[i..]) == Hex(k)
    {
      assert k[i..][0] == k[i] && k[i..][1..] == k[i + 1..];
      s := s + [DIGITS[k[i] as int / 16], DIGITS[k[i] as int % 16]];
    }
  }

  lemma PrependNothing(k: Option<Key>)
    ensures Prepend([], k) == k
  {
    if k.Some? {
      assert [] + k.value == k.value;
    }
  }

  lemma PrependTwice(a: Key, b: Key, rest: Option<Key>)
    ensures Prepend(a, Prepend(b, rest)) == Prepend(a + b, rest)
  {
    if rest.Some? {
      assert a + (b + rest.value) == (a + b) + rest.value;
    }
  }

  method ReadHex(s: string) returns (k: Option<Key>)
    ensures k == Unhex(s)
  {
    if |s| != 64 {
      return None;
    }
    var out: Key := [];
    assert s[0..] == s;
    PrependNothing(OctetsOf(s));
    for i := 0 to 32
      invariant OctetsOf(s) == Prepend(out, OctetsOf(s[2 * i..]))
    {
      var rest := s[2 * i..];
      assert rest[0] == s[2 * i] && rest[1] == s[2 * i + 1] && rest[2..] == s[2 * (i + 1)..];
      var b := OctetOf(s[2 * i], s[2 * i + 1]);
      if b.None? {
        return None;
      }
      PrependTwice(out, [b.value], OctetsOf(rest[2..]));
      out := out + [b.value];
    }
    assert s[64..] == [] && out + [] == out;
    k := Some(out);
  }

  lemma DigitBack(n: nat)
    requires n < 16
    ensures DigitOf(DIGITS[n]) == Some(n)
  {
  }

  lemma OctetBack(b: byte)
    ensures OctetOf(DIGITS[b as int / 16], DIGITS[b as int % 16]) == Some(b)
  {
    DigitBack(b as int / 16);
    DigitBack(b as int % 16);
  }

  /** Every data key is read back from its digits. */
  lemma {:induction false} HexRoundTrip(k: Key)
    ensures OctetsOf(Hex(k)) == Some(k)
    decreases |k|
  {
    if k != [] {
      HexRoundTrip(k[1..]);
      OctetBack(k[0]);
      var a, b, rest := DIGITS[k[0] as int / 16], DIGITS[k[0] as int % 16], Hex(k[1..]);
      assert Hex(k) == [a, b] + rest;
      assert ([a, b] + rest)[2..] == rest;
      assert k == [k[0]] + k[1..];
    }
  }

  // ----- who can open what -----

  /** A machine's own key, if its credential store gives one. */
  datatype Vault = Vault(key: Option<Key>)

  datatype Sealer = Machine(vault: Vault) | Shared(key: Key, reader: Option<Vault>)

  /** A stored value: plain text, or sealed under a vault's prefix or the shared one. */
  datatype Stored = Text(s: string) | UnderVault(key: Key, s: string) | UnderShared(key: Key, s: string)

  function VaultSeal(v: Vault, s: string): Stored {
    match v.key case None => Text(s) case Some(k) => UnderVault(k, s)
  }

  /** Plain text opens to itself; what another key sealed opens to nothing. */
  function VaultOpen(v: Vault, stored: Stored): string {
    match stored
    case Text(s) => s
    case UnderVault(k, s) => if v.key == Some(k) then s else ""
    case UnderShared(_, s) => ""
  }

  function Seal(sealer: Sealer, s: string): Stored {
    match sealer
    case Machine(v) => VaultSeal(v, s)
    case Shared(k, _) => UnderShared(k, s)
  }

  function Open(sealer: Sealer, stored: Stored): string {
    match sealer
    case Machine(v) => if stored.UnderShared? then "" else VaultOpen(v, stored)
    case Shared(k, reader) =>
      if stored.UnderShared? then (if stored.key == k then stored.s else "")
      else if reader.None? then "" else VaultOpen(reader.value, stored)
  }

  /** Whether sealing will seal. */
  predicate Available(sealer: Sealer) {
    match sealer
    case Machine(v) => v.key.Some?
    case Shared(_, _) => true
  }

  /** The vault a sealer can read machine-sealed keys with. */
  function ReaderOf(sealer: Sealer): Option<Vault> {
    match sealer
    case Machine(v) => Some(v)
    case Shared(_, reader) => reader
  }

  /** What one sealed, the other opens: the same shared key, or a reader with the same machine key. */
  predicate Matches(sealer: Sealer, opener: Sealer) {
    match sealer
    case Shared(k, _) => opener.Shared? && opener.key == k
    case Machine(v) => v.key.Some? && ReaderOf(opener).Some? && ReaderOf(opener).value.key == v.key
  }

  /** A data key sealed by a sealer that seals comes back exactly under a matching one; under any
      other nothing comes back. */
  lemma SealMatrix(sealer: Sealer, opener: Sealer, k: Key)
    requires Available(sealer) && |k| == 32
    ensures Unhex(Open(opener, Seal(sealer, Hex(k)))) == if Matches(sealer, opener) then Some(k) else None
  {
    HexRoundTrip(k);
    assert Unhex("") == None;
  }

  // ----- bundles -----

  /** The octets of a bundle: anything else, or an archive sealed under its data key. */
  datatype Blob = Foreign | Bundle(key: Key, archive: seq<Item>)

  datatype BundleError = NoStore | NotABundle | KeyWontOpen | Unreadable | Escapes

  datatype Sealed = Sealed(blob: Blob, wrapped: Stored)

  method Pack(profile: Option<seq<Entry>>, sealer: Sealer, dataKey: Key) returns (r: Result<Sealed, BundleError>)
    ensures r == Packed(profile, sealer, dataKey)
  {
    var archive := [];
    if profile.Some? {
      archive := AppendDir([], profile.value, []);
      assert archive == Archived(profile.value, []);
    }
    var hex := WriteHex(dataKey);
    var wrapped := Seal(sealer, hex);
    if !Available(sealer) {
      return Err(NoStore);
    }
    return Ok(Sealed(Bundle(dataKey, archive), wrapped));
  }

  function Packed(profile: Option<seq<Entry>>, sealer: Sealer, dataKey: Key): Result<Sealed, BundleError> {
    if !Available(sealer) then Err(NoStore)
    else
      Ok(Sealed(Bundle(dataKey, if profile.Some? then Archived(profile.value, []) else []), Seal(sealer, Hex(dataKey))))
  }

  /** Opening a bundle: the archive in it, or why not. */
  function Opened(sealed: Sealed, opener: Sealer): Result<seq<Item>, BundleError> {
    if sealed.blob.Foreign? then Err(NotABundle)
    else
      match Unhex(Open(opener, sealed.wrapped))
      case None => Err(KeyWontOpen)
      case Some(k) => if k == sealed.blob.key then Ok(sealed.blob.archive) else Err(Unreadable)
  }

  /** Where an item is written: below the destination, unless its own path begins at the root. */
  function Target(dest: Path, item: Item): Path {
    if item.Rooted? then item.path else dest + item.path
  }

  /** Writing an archive's files, in order, over what is on the disk. It stops at a path that climbs. */
  function Written(disk: map<Path, Content>, dest: Path, archive: seq<Item>): map<Path, Content>
    decreases archive
  {
    if archive == [] || ".." in archive[0].path then disk
    else
      var next := if archive[0].isFile then disk[Target(dest, archive[0]) := archive[0].content] else disk;
      Written(next, dest, archive[1..])
  }

  /** How many of an archive's items are files. */
  function FileCount(archive: seq<Item>): nat
    decreases archive
  {
    if archive == [] then 0 else (if archive[0].isFile then 1 else 0) + FileCount(archive[1..])
  }

  predicate Climbs(archive: seq<Item>) {
    exists item <- archive :: ".." in item.path
  }

  /** A disk, with the profile's directory on it. */
  class Directory {
    const dest: Path
    var disk: map<Path, Content>

    constructor (dest: Path, disk: map<Path, Content>)
      ensures this.dest == dest && this.disk == disk
    {
      this.dest, this.disk := dest, disk;
    }

    method Unpack(sealed: Sealed, opener: Sealer) returns (r: Result<nat, BundleError>)
      modifies this
      ensures match Opened(sealed, opener)
              case Err(e) => r == Err(e) && disk == old(disk)
              case Ok(archive) => disk == Written(old(disk), dest, archive)
                                  && r == if Climbs(archive) then Err(Escapes) else Ok(FileCount(archive))
    {
      if sealed.blob.Foreign? {
        return Err(NotABundle);
      }
      var key := ReadHex(Open(opener, sealed.wrapped));
      if key.None? {
        return Err(KeyWontOpen);
      }
      if key.value != sealed.blob.key {
        return Err(Unreadable);
      }
      r := WriteAll(sealed.blob.archive);
    }

    method WriteAll(archive: seq<Item>) returns (r: Result<nat, BundleError>)
      modifies this
      ensures disk == Written(old(disk), dest, archive)
      ensures r == if Climbs(archive) then Err(Escapes) else Ok(FileCount(archive))
    {
      var written := 0;
      for i := 0 to |archive|
        invariant Written(disk, dest, archive[i..]) == Written(old(disk), dest, archive)
        invariant forall j | 0 <= j < i :: ".." !in archive[j].path
        invariant written + FileCount(archive[i..]) == FileCount(archive)
      {
        var item := archive[i];
        assert archive[i..][0] == item && archive[i..][1..] == archive[i + 1..];
        if ".." in item.path {
          assert item in archive;
          return Err(Escapes);
        }
        if item.isFile {
          disk := disk[Target(dest, item) := item.content];
          written := written + 1;
        }
      }
      assert archive[|archive|..] == [];
      return Ok(written);
    }
  }

  // ----- where files are written -----

  /** Some file is reached, before any path that climbs, whose own path begins at the root and leads
      elsewhere. */
  predicate Astray(dest: Path, archive: seq<Item>)
    decreases archive
  {
    && archive != []
    && ".." !in archive[0].path
    && ((archive[0].isFile && archive[0].Rooted? && !(dest <= archive[0].path)) || Astray(dest, archive[1..]))
  }

  /** Nothing outside the directory is written, whatever is on the disk. */
  ghost predicate StaysBelow(dest: Path, archive: seq<Item>) {
    forall disk: map<Path, Content>, p: Path ::
      !(dest <= p) ==> (p in Written(disk, dest, archive) <==> p in disk)
                       && (p in disk ==> Written(disk, dest, archive)[p] == disk[p])
  }

  lemma {:induction false} WritesBelow(disk: map<Path, Content>, dest: Path, archive: seq<Item>, p: Path)
    requires !Astray(dest, archive) && !(dest <= p)
    ensures p in Written(disk, dest, archive) <==> p in disk
    ensures p in disk ==> Written(disk, dest, archive)[p] == disk[p]
    decreases archive
  {
    if archive != [] && ".." !in archive[0].path {
      assert dest <= Target(dest, archive[0]) || !archive[0].isFile;
      var next := if archive[0].isFile then disk[Target(dest, archive[0]) := archive[0].content] else disk;
      WritesBelow(next, dest, archive[1..], p);
    }
  }

  /** What is written stays on the disk. */
  lemma {:induction false} WrittenStays(disk: map<Path, Content>, dest: Path, archive: seq<Item>, p: Path)
    requires p in disk
    ensures p in Written(disk, dest, archive)
    decreases archive
  {
    if archive != [] && ".." !in archive[0].path {
      var next := if archive[0].isFile then disk[Target(dest, archive[0]) := archive[0].content] else disk;
      WrittenStays(next, dest, archive[1..], p);
    }
  }

  lemma {:induction false} WritesElsewhere(disk: map<Path, Content>, dest: Path, archive: seq<Item>) returns (p: Path)
    requires Astray(dest, archive)
    ensures !(dest <= p) && p in Written(disk, dest, archive)
    decreases archive
  {
    var item := archive[0];
    var next := if item.isFile then disk[Target(dest, item) := item.content] else disk;
    if item.isFile && item.Rooted? && !(dest <= item.path) {
      p := item.path;
      WrittenStays(next, dest, archive[1..], p);
    } else {
      p := WritesElsewhere(next, dest, archive[1..]);
    }
  }

  /** Everything an archive writes lies below the directory, whatever is on the disk, exactly when no
      file it reaches has a path that begins at the root and leads elsewhere: only climbing is
      refused. */
  lemma BelowUnlessAstray(dest: Path, archive: seq<Item>)
    ensures StaysBelow(dest, archive) <==> !Astray(dest, archive)
  {
    if Astray(dest, archive) {
      var empty: map<Path, Content> := map[];
      var p := WritesElsewhere(empty, dest, archive);
      assert p !in empty;
    } else {
      forall disk: map<Path, Content>, p: Path | !(dest <= p)
        ensures (p in Written(disk, dest, archive) <==> p in disk)
                && (p in disk ==> Written(disk, dest, archive)[p] == disk[p])
      {
        WritesBelow(disk, dest, archive, p);
      }
    }
  }

  lemma {:induction false} RelativeStays(dest: Path, archive: seq<Item>)
    requires forall item <- archive :: item.Item?
    ensures !Astray(dest, archive)
    decreases archive
  {
    if archive != [] {
      assert archive[0] in archive;
      RelativeStays(dest, archive[1..]);
    }
  }

  // ----- round trips -----

  /** The files of a profile that travel. */
  ghost predicate Carries(entries: seq<Entry>, path: Path, c: Content) {
    FileAt(entries, path) == Some(c) && Travels(path, true)
  }

  lemma CarriedIsArchived(entries: seq<Entry>, path: Path, c: Content)
    requires Listed(entries)
    ensures Carries(entries, path, c) <==> Item(path, true, c) in Archived(entries, [])
  {
    ArchivedMeans(entries, [], path, c);
    assert path[0..] == path;
  }

  /** The archive has this content for this place of the disk. */
  ghost predicate Brings(dest: Path, archive: seq<Item>, p: Path, c: Content) {
    dest <= p && Item(p[|dest|..], true, c) in archive
  }

  /** After writing, a place holds what the archive brings there, if it brings anything. */
  lemma {:induction false} WrittenMeans(disk: map<Path, Content>, dest: Path, archive: seq<Item>, p: Path)
    requires forall item <- archive :: item.Item? && item.isFile && ".." !in item.path
    requires forall a, b | a in archive && b in archive && a.path == b.path :: a == b
    ensures var after := Written(disk, dest, archive);
            && (forall c :: Brings(dest, archive, p, c) ==> p in after && after[p] == c)
            && ((forall c :: !Brings(dest, archive, p, c)) ==>
                  (p in after <==> p in disk) && (p in disk ==> after[p] == disk[p]))
    decreases |archive|
  {
    if archive != [] {
      var item := archive[0];
      assert item in archive;
      var next := disk[Target(dest, item) := item.content];
      WrittenMeans(next, dest, archive[1..], p);
      if Target(dest, item) == p {
        assert p[|dest|..] == item.path;
        forall c | Brings(dest, archive, p, c) ensures c == item.content {
          assert Item(item.path, true, c) == item;
        }
        assert Brings(dest, archive, p, item.content);
      } else {
        forall c ensures Brings(dest, archive, p, c) <==> Brings(dest, archive[1..], p, c) {
          assert dest <= p ==> dest + p[|dest|..] == p;
        }
      }
    }
  }

  ghost predicate CarriesTo(entries: seq<Entry>, dest: Path, p: Path, c: Content) {
    dest <= p && Carries(entries, p[|dest|..], c)
  }

  /** The files carried, as what is on disk: below the destination they replace what has their paths,
      and nothing else is touched. */
  ghost predicate Holds(disk: map<Path, Content>, was: map<Path, Content>, dest: Path, entries: seq<Entry>) {
    forall p: Path ::
      && (forall c :: CarriesTo(entries, dest, p, c) ==> p in disk && disk[p] == c)
      && ((forall c :: !CarriesTo(entries, dest, p, c)) ==>
            (p in disk <==> p in was) && (p in was ==> disk[p] == was[p]))
  }

  /** Packed by one sealer and unpacked by another: if they match, over any disk, exactly the files
      that travel are written, with their contents and below the destination; if not, nothing is. */
  lemma BundleRoundTrip(entries: seq<Entry>, sealer: Sealer, opener: Sealer, dataKey: Key,
                        was: map<Path, Content>, dest: Path)
    requires Listed(entries) && Available(sealer) && |dataKey| == 32
    ensures var sealed := Packed(Some(entries), sealer, dataKey).value;
            && (Matches(sealer, opener) ==>
                  && Opened(sealed, opener) == Ok(Archived(entries, []))
                  && !Climbs(Archived(entries, [])) && !Astray(dest, Archived(entries, []))
                  && Holds(Written(was, dest, Archived(entries, [])), was, dest, entries))
            && (!Matches(sealer, opener) ==> Opened(sealed, opener) == Err(KeyWontOpen))
  {
    SealMatrix(sealer, opener, dataKey);
    ArchivedAreFiles(entries, []);
    RelativeStays(dest, Archived(entries, []));
    WrittenHolds(entries, was, dest);
  }

  lemma BroughtIsCarried(entries: seq<Entry>, dest: Path, p: Path, c: Content)
    requires Listed(entries)
    ensures Brings(dest, Archived(entries, []), p, c) <==> CarriesTo(entries, dest, p, c)
  {
    if dest <= p {
      CarriedIsArchived(entries, p[|dest|..], c);
    }
  }

  lemma WrittenHolds(entries: seq<Entry>, was: map<Path, Content>, dest: Path)
    requires Listed(entries)
    ensures Holds(Written(was, dest, Archived(entries, [])), was, dest, entries)
  {
    var archive := Archived(entries, []);
    ArchivedAreFiles(entries, []);
    forall a, b | a in archive && b in archive && a.path == b.path ensures a == b {
      CarriedIsArchived(entries, a.path, a.content);
      CarriedIsArchived(entries, b.path, b.content);
    }
    var after := Written(was, dest, archive);
    forall p: Path
      ensures forall c :: CarriesTo(entries, dest, p, c) ==> p in after && after[p] == c
      ensures (forall c :: !CarriesTo(entries, dest, p, c)) ==>
                (p in after <==> p in was) && (p in was ==> after[p] == was[p])
    {
      WrittenMeans(was, dest, archive, p);
      forall c ensures CarriesTo(entries, dest, p, c) <==> Brings(dest, archive, p, c) {
        BroughtIsCarried(entries, dest, p, c);
      }
    }
  }

  /** Two listings of the same files. */
  ghost predicate SameFiles(a: seq<Entry>, b: seq<Entry>) {
    forall path: Path :: FileAt(a, path) == FileAt(b, path)
  }

  /** The order a directory is listed in does not matter: the same files come out of either bundle. */
  lemma ListingOrder(a: seq<Entry>, b: seq<Entry>, was: map<Path, Content>, dest: Path)
    requires Listed(a) && Listed(b) && SameFiles(a, b)
    ensures Written(was, dest, Archived(a, [])) == Written(was, dest, Archived(b, []))
  {
    WrittenHolds(a, was, dest);
    WrittenHolds(b, was, dest);
    var x, y := Written(was, dest, Archived(a, [])), Written(was, dest, Archived(b, []));
    forall p: Path ensures p in x <==> p in y ensures p in x && p in y ==> x[p] == y[p] {
      SamePlace(a, b, x, y, was, dest, p);
    }
  }

  lemma SamePlace(a: seq<Entry>, b: seq<Entry>, x: map<Path, Content>, y: map<Path, Content>, was: map<Path, Content>,
                  dest: Path, p: Path)
    requires SameFiles(a, b) && Holds(x, was, dest, a) && Holds(y, was, dest, b)
    ensures p in x <==> p in y
    ensures p in x && p in y ==> x[p] == y[p]
  {
    if dest <= p && FileAt(a, p[|dest|..]).Some? && Travels(p[|dest|..], true) {
      var c := FileAt(a, p[|dest|..]).value;
      assert CarriesTo(a, dest, p, c) && CarriesTo(b, dest, p, c);
    } else {
      assert dest <= p ==> FileAt(a, p[|dest|..]) == FileAt(b, p[|dest|..]);
      assert forall c :: !CarriesTo(a, dest, p, c) && !CarriesTo(b, dest, p, c);
    }
  }

  /** The directory holds these files and no others. */
  ghost predicate IsListing(entries: seq<Entry>, disk: map<Path, Content>, dest: Path) {
    forall p: Path | dest <= p :: FileAt(entries, p[|dest|..]) == if p in disk then Some(disk[p]) else None
  }

  /** Packing what was unpacked carries the same files again: nothing of a bundle is skipped twice. */
  lemma RepackSame(entries: seq<Entry>, again: seq<Entry>, dest: Path)
    requires Listed(entries) && Listed(again) && IsListing(again, Written(map[], dest, Archived(entries, [])), dest)
    ensures Written(map[], dest, Archived(again, [])) == Written(map[], dest, Archived(entries, []))
  {
    var first, second := Written(map[], dest, Archived(entries, [])), Written(map[], dest, Archived(again, []));
    WrittenHolds(entries, map[], dest);
    WrittenHolds(again, map[], dest);
    forall p: Path ensures p in first <==> p in second ensures p in first && p in second ==> first[p] == second[p] {
      RepackPlace(entries, again, first, second, dest, p);
    }
  }

  lemma RepackPlace(entries: seq<Entry>, again: seq<Entry>, first: map<Path, Content>, second: map<Path, Content>,
                    dest: Path, p: Path)
    requires Holds(first, map[], dest, entries) && Holds(second, map[], dest, again) && IsListing(again, first, dest)
    ensures p in first <==> p in second
    ensures p in first && p in second ==> first[p] == second[p]
  {
    if p in first {
      assert exists c :: CarriesTo(entries, dest, p, c);
      assert CarriesTo(again, dest, p, first[p]);
    } else {
      assert dest <= p ==> FileAt(again, p[|dest|..]) == None;
      assert forall c :: !CarriesTo(again, dest, p, c);
    }
  }
}
