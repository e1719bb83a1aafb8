/** Reading a ZIP archive (sections 4.3.7, 4.3.12 and 4.3.16 of the PKWARE APPNOTE): the end record
    found from the back, the central directory walked, each entry's data found through its local
    header. */
module Zip {
  import opened Wrappers
  import opened Bytes
  import opened ZipPaths

  const LOCAL: seq<byte> := [80, 75, 3, 4]
  const CENTRAL: seq<byte> := [80, 75, 1, 2]
  const END: seq<byte> := [80, 75, 5, 6]

  const LOCAL_LEN := 30
  const CENTRAL_LEN := 46
  const END_LEN := 22

  /** Inflating, which is not part of this model: any function that may fail. */
  type Inflate = seq<byte> -> Option<seq<byte>>

  function U16At(zip: seq<byte>, at: nat): u16
    requires at + 2 <= |zip|
  {
    Le16(zip[at], zip[at + 1])
  }

  function U32At(zip: seq<byte>, at: nat): u32
    requires at + 4 <= |zip|
  {
    Le32(zip[at], zip[at + 1], zip[at + 2], zip[at + 3])
  }

  predicate SignatureAt(zip: seq<byte>, at: nat, sig: seq<byte>) {
    at + 4 <= |zip| && zip[at..at + 4] == sig
  }

  // ----- the end record -----

  /** A whole end record could begin here. */
  predicate EndAt(zip: seq<byte>, i: nat) {
    i + END_LEN <= |zip| && SignatureAt(zip, i, END)
  }

  /** The last place below a bound where an end record could begin. */
  function LastEnd(zip: seq<byte>, bound: nat): (e: Option<nat>)
    ensures e.Some? ==> e.value < bound && EndAt(zip, e.value) && forall j: nat | e.value < j < bound :: !EndAt(zip, j)
    ensures e.None? ==> forall j: nat | j < bound :: !EndAt(zip, j)
  {
    if bound == 0 then None
    else if EndAt(zip, bound - 1) then Some(bound - 1)
    else LastEnd(zip, bound - 1)
  }

  method FindEnd(zip: seq<byte>) returns (e: Option<nat>)
    ensures e == LastEnd(zip, |zip|)
  {
    var i: nat := if |zip| >= 21 then |zip| - 21 else 0;
    NoEndBeyond(zip, i);
    while i > 0
      invariant i <= |zip| && LastEnd(zip, |zip|) == LastEnd(zip, i)
    {
      if EndAt(zip, i - 1) {
        return Some(i - 1);
      }
      i := i - 1;
    }
    return None;
  }

  lemma NoEndBeyond(zip: seq<byte>, i: nat)
    requires i <= |zip| <= i + 21
    ensures LastEnd(zip, |zip|) == LastEnd(zip, i)
  {
    var e := LastEnd(zip, |zip|);
    var f := LastEnd(zip, i);
    if e.Some? {
      assert EndAt(zip, e.value);
    }
  }

  // ----- one entry -----

  /** What the directory says of an entry, and the octets it stands for. */
  datatype Raw = Raw(name: seq<byte>, m: u16, data: seq<byte>)

  /** The entry whose central header begins here, and where the next one does. */
  function EntryAt(zip: seq<byte>, at: nat): Result<(Raw, nat), ZipError> {
    if at > |zip| then Err(OutOfBounds)
    else if !SignatureAt(zip, at, CENTRAL) then Err(BadDirectory)
    else if at + CENTRAL_LEN > |zip| then Err(OutOfBounds)
    else
      var nameLen := U16At(zip, at + 28);
      var next := at + CENTRAL_LEN + nameLen + U16At(zip, at + 30) + U16At(zip, at + 32);
      if at + CENTRAL_LEN + nameLen > |zip| then Err(OutOfBounds)
      else
        match DataAt(zip, U32At(zip, at + 42), U32At(zip, at + 20))
        case Err(e) => Err(e)
        case Ok(data) => Ok((Raw(zip[at + CENTRAL_LEN..at + CENTRAL_LEN + nameLen], U16At(zip, at + 10), data), next))
  }

  /** The data behind a local header, past that header's own name and extra field. */
  function DataAt(zip: seq<byte>, at: nat, len: nat): Result<seq<byte>, ZipError> {
    if at > |zip| then Err(OutOfBounds)
    else if !SignatureAt(zip, at, LOCAL) then Err(NoLocalHeader)
    else if at + LOCAL_LEN > |zip| then Err(OutOfBounds)
    else
      var from := at + LOCAL_LEN + U16At(zip, at + 26) + U16At(zip, at + 28);
      if from + len > |zip| then Err(PastEnd) else Ok(zip[from..from + len])
  }

  // ----- what is written -----

  /** What is on disk, and what stopped the unpacking, if anything did. */
  datatype Outcome = Outcome(files: map<Path, seq<byte>>, error: Option<ZipError>)

  predicate IsDirectory(name: seq<byte>) {
    name != [] && name[|name| - 1] == SLASH
  }

  function ContentOf(raw: Raw, inflate: Inflate): Result<seq<byte>, ZipError> {
    if raw.m == 0 then Ok(raw.data)
    else if raw.m == 8 then
      match inflate(raw.data)
      case None => Err(Inflating)
      case Some(content) => Ok(content)
    else Err(UnknownMethod(raw.m))
  }

  /** One entry written: a directory leaves no file behind. */
  function Put(files: map<Path, seq<byte>>, raw: Raw, inflate: Inflate): Outcome {
    match SafeJoin(raw.name)
    case Err(e) => Outcome(files, Some(e))
    case Ok(path) =>
      if IsDirectory(raw.name) then Outcome(files, None)
      else
        match ContentOf(raw, inflate)
        case Err(e) => Outcome(files, Some(e))
        case Ok(content) => if path == [] then Outcome(files, Some(NotAFile)) else Outcome(files[path := content], None)
  }

  function Walk(zip: seq<byte>, at: nat, count: nat, files: map<Path, seq<byte>>, inflate: Inflate): Outcome
    decreases count
  {
    if count == 0 then Outcome(files, None)
    else
      match EntryAt(zip, at)
      case Err(e) => Outcome(files, Some(e))
      case Ok((raw, next)) =>
        var o := Put(files, raw, inflate);
        if o.error.Some? then o else Walk(zip, next, count - 1, o.files, inflate)
  }

  function Stepped(zip: seq<byte>, at: nat, files: map<Path, seq<byte>>, inflate: Inflate): Outcome {
    match EntryAt(zip, at)
    case Err(e) => Outcome(files, Some(e))
    case Ok((raw, _)) => Put(files, raw, inflate)
  }

  lemma WalkStep(zip: seq<byte>, at: nat, count: nat, files: map<Path, seq<byte>>, inflate: Inflate)
    requires count > 0
    ensures var o := Stepped(zip, at, files, inflate);
            && (o.error.Some? ==> Walk(zip, at, count, files, inflate) == o)
            && (o.error.None? ==>
                  && EntryAt(zip, at).Ok?
                  && Walk(zip, at, count, files, inflate)
                      == Walk(zip, EntryAt(zip, at).value.1, count - 1, o.files, inflate))
  {
  }

  function Unzipped(zip: seq<byte>, files: map<Path, seq<byte>>, inflate: Inflate): Outcome {
    match LastEnd(zip, |zip|)
    case None => Outcome(files, Some(NotAZip))
    case Some(e) => Walk(zip, U32At(zip, e + 16), U16At(zip, e + 10), files, inflate)
  }

  // ----- the reader -----

  /** A directory being unpacked into. */
  class Target {
    var files: map<Path, seq<byte>>

    constructor ()
      ensures files == map[]
    {
      files := map[];
    }

    method Unzip(zip: seq<byte>, inflate: Inflate) returns (error: Option<ZipError>)
      modifies this
      ensures Outcome(files, error) == Unzipped(zip, old(files), inflate)
    {
      var e := FindEnd(zip);
      if e.None? {
        return Some(NotAZip);
      }
      error := WalkDirectory(zip, U32At(zip, e.value + 16), U16At(zip, e.value + 10), inflate);
    }

    method WalkDirectory(zip: seq<byte>, from: nat, count: nat, inflate: Inflate) returns (error: Option<ZipError>)
      modifies this
      ensures Outcome(files, error) == Walk(zip, from, count, old(files), inflate)
    {
      var at := from;
      ghost var all := Walk(zip, from, count, files, inflate);
      for i := 0 to count
        invariant Walk(zip, at, count - i, files, inflate) == all
      {
        ghost var was := files;
        var next;
        error, next := Step(zip, at, inflate);
        WalkStep(zip, at, count - i, was, inflate);
        if error.Some? {
          return error;
        }
        at := next;
      }
      return None;
    }

    /** One turn of the walk: an entry read and written. */
    method Step(zip: seq<byte>, at: nat, inflate: Inflate) returns (error: Option<ZipError>, next: nat)
      modifies this
      ensures Outcome(files, error) == Stepped(zip, at, old(files), inflate)
      ensures error.None? ==> EntryAt(zip, at).Ok? && next == EntryAt(zip, at).value.1
    {
      var entry := EntryAt(zip, at);
      if entry.Err? {
        return Some(entry.error), at;
      }
      error := PutEntry(entry.value.0, inflate);
      next := entry.value.1;
    }

    method PutEntry(raw: Raw, inflate: Inflate) returns (error: Option<ZipError>)
      modifies this
      ensures Outcome(files, error) == Put(old(files), raw, inflate)
    {
      var out := JoinParts(raw.name);
      if out.Err? {
        return Some(out.error);
      }
      if IsDirectory(raw.name) {
        return None;
      }
      var content;
      match raw.m {
        case 0 =>
          content := raw.data;
        case 8 =>
          var inflated := inflate(raw.data);
          if inflated.None? {
            return Some(Inflating);
          }
          content := inflated.value;
        case _ =>
          return Some(UnknownMethod(raw.m));
      }
      if out.value == [] {
        return Some(NotAFile);
      }
      files := files[out.value := content];
      return None;
    }
  }

  // ----- on any bytes at all -----

  ghost predicate AllSafe(files: map<Path, seq<byte>>) {
    forall path <- files :: path != [] && forall part <- path :: Safe(part)
  }

  /** Writing one more entry stays among these. */
  ghost predicate Closed(kept: iset<map<Path, seq<byte>>>, inflate: Inflate) {
    forall f: map<Path, seq<byte>>, raw: Raw :: f in kept ==> Put(f, raw, inflate).files in kept
  }

  /** One turn of a walk, which ends as the whole does. */
  lemma WalkNext(kept: iset<map<Path, seq<byte>>>, zip: seq<byte>, at: nat, count: nat, files: map<Path, seq<byte>>,
                 inflate: Inflate, last: Outcome) returns (o: Outcome, next: nat)
    requires count > 0 && last == Walk(zip, at, count, files, inflate)
    requires files in kept && Closed(kept, inflate)
    ensures if o.error.Some? then last == o else last == Walk(zip, next, count - 1, o.files, inflate)
    ensures o.files in kept
  {
    WalkStep(zip, at, count, files, inflate);
    o, next := Stepped(zip, at, files, inflate), 0;
    if EntryAt(zip, at).Ok? {
      next := EntryAt(zip, at).value.1;
    }
  }

  /** What every single entry keeps, a walk keeps. */
  lemma {:induction false} WalkKeeps(kept: iset<map<Path, seq<byte>>>, zip: seq<byte>, at: nat, count: nat,
                                     files: map<Path, seq<byte>>, inflate: Inflate, last: Outcome)
    requires last == Walk(zip, at, count, files, inflate)
    requires files in kept && Closed(kept, inflate)
    ensures last.files in kept
    decreases count
  {
    if count > 0 {
      var o, next := WalkNext(kept, zip, at, count, files, inflate, last);
      if o.error.None? {
        WalkKeeps(kept, zip, next, count - 1, o.files, inflate, last);
      }
    }
  }

  lemma PutIsSafe(files: map<Path, seq<byte>>, raw: Raw, inflate: Inflate)
    requires AllSafe(files)
    ensures AllSafe(Put(files, raw, inflate).files)
  {
    JoinIsSafe(raw.name);
  }

  /** Whatever the bytes are and wherever unpacking stops, every file written lies below the directory:
      its path is one or more components, none empty, `.` or `..`, and none with a separator in it. */
  lemma UnzippedIsSafe(zip: seq<byte>, inflate: Inflate)
    ensures AllSafe(Unzipped(zip, map[], inflate).files)
  {
    var kept := iset files: map<Path, seq<byte>> | AllSafe(files);
    forall f: map<Path, seq<byte>>, raw: Raw | f in kept ensures Put(f, raw, inflate).files in kept {
      PutIsSafe(f, raw, inflate);
    }
    var e := LastEnd(zip, |zip|);
    if e.Some? {
      WalkKeeps(kept, zip, U32At(zip, e.value + 16), U16At(zip, e.value + 10), map[], inflate,
          Unzipped(zip, map[], inflate));
    }
  }

  // ----- where the reader would read past the end -----

  predicate Inside(zip: seq<byte>, spans: seq<(nat, nat)>) {
    forall s <- spans :: s.0 <= s.1 <= |zip|
  }

  /** The slices the reader takes of an archive for a local header, each of which stops the program if
      it is not inside; a missing signature stops the reading first. */
  function LocalSlices(zip: seq<byte>, at: nat): seq<(nat, nat)> {
    [(at, |zip|)]
    + if at <= |zip| && SignatureAt(zip, at, LOCAL) then [(at + 26, at + 28), (at + 28, at + 30)] else []
  }

  /** The same for a central header and its name, and then for the local header it points at. */
  function CentralSlices(zip: seq<byte>, at: nat): seq<(nat, nat)> {
    if at > |zip| || !SignatureAt(zip, at, CENTRAL) then [(at, |zip|)]
    else
      var fixed := [(at + 10, at + 12), (at + 20, at + 24), (at + 28, at + 30), (at + 30, at + 32), (at + 32, at + 34),
                    (at + 42, at + 46)];
      if at + 46 > |zip| then fixed
      else
        var name := (at + 46, at + 46 + U16At(zip, at + 28));
        fixed + [name] + if name.1 <= |zip| then LocalSlices(zip, U32At(zip, at + 42)) else []
  }

  /** The model says `OutOfBounds` for an entry exactly when one of these slices is not inside. */
  lemma OutOfBoundsMeans(zip: seq<byte>, at: nat)
    ensures EntryAt(zip, at) == Err(OutOfBounds) <==> !Inside(zip, CentralSlices(zip, at))
  {
    var spans := CentralSlices(zip, at);
    if at <= |zip| && SignatureAt(zip, at, CENTRAL) {
      if at + 46 > |zip| {
        assert (at + 42, at + 46) == spans[5] && spans[5] in spans;
      } else {
        var name := (at + 46, at + 46 + U16At(zip, at + 28));
        assert name == spans[6] && spans[6] in spans;
        if name.1 <= |zip| {
          LocalSlicesMean(zip, U32At(zip, at + 42), U32At(zip, at + 20));
          var local := LocalSlices(zip, U32At(zip, at + 42));
          assert spans[7..] == local;
          assert forall s <- local :: s in spans;
        }
      }
    } else {
      assert (at, |zip|) == spans[0] && spans[0] in spans;
    }
  }

  lemma LocalSlicesMean(zip: seq<byte>, at: nat, len: nat)
    ensures DataAt(zip, at, len) == Err(OutOfBounds) <==> !Inside(zip, LocalSlices(zip, at))
  {
    var spans := LocalSlices(zip, at);
    assert (at, |zip|) == spans[0] && spans[0] in spans;
    if at <= |zip| && SignatureAt(zip, at, LOCAL) {
      assert (at + 28, at + 30) == spans[2] && spans[2] in spans;
    }
  }

  /** Where the reader stands after so many entries read and written. */
  function Reached(zip: seq<byte>, at: nat, entries: nat, inflate: Inflate): Option<nat>
    decreases entries
  {
    if entries == 0 then Some(at)
    else
      match EntryAt(zip, at)
      case Err(_) => None
      case Ok((raw, next)) =>
        if Put(map[], raw, inflate).error.Some? then None else Reached(zip, next, entries - 1, inflate)
  }

  /** One of the entries the reader reaches takes a slice that is not inside. */
  ghost predicate ReachesCut(zip: seq<byte>, at: nat, count: nat, inflate: Inflate) {
    exists i | 0 <= i < count :: CutAfter(zip, at, i, inflate)
  }

  predicate CutAfter(zip: seq<byte>, at: nat, entries: nat, inflate: Inflate) {
    var r := Reached(zip, at, entries, inflate);
    r.Some? && !Inside(zip, CentralSlices(zip, r.value))
  }

  /** Writing never reads past the end, and fails the same way whatever is there already. */
  lemma PutFailsAlike(files: map<Path, seq<byte>>, raw: Raw, inflate: Inflate)
    ensures Put(files, raw, inflate).error == Put(map[], raw, inflate).error
    ensures Put(files, raw, inflate).error != Some(OutOfBounds)
  {
    JoinFails(raw.name);
  }

  lemma JoinFails(name: seq<byte>)
    ensures SafeJoin(name).Err? ==> SafeJoin(name).error == Absolute || SafeJoin(name).error == Climbs
  {
    KeptFails(Split(name));
  }

  lemma {:induction false} KeptFails(parts: seq<seq<byte>>)
    ensures Kept(parts).Err? ==> Kept(parts).error == Climbs
    decreases |parts|
  {
    if parts != [] {
      KeptFails(parts[1..]);
    }
  }

  lemma {:induction false} WalkReachesCut(zip: seq<byte>, at: nat, count: nat, files: map<Path, seq<byte>>,
                                          inflate: Inflate)
    ensures Walk(zip, at, count, files, inflate).error == Some(OutOfBounds) <==> ReachesCut(zip, at, count, inflate)
    decreases count
  {
    if count > 0 {
      var o := Stepped(zip, at, files, inflate);
      WalkStep(zip, at, count, files, inflate);
      if o.error.Some? {
        StopsHere(zip, at, count, files, inflate);
      } else {
        var next := EntryAt(zip, at).value.1;
        WalkReachesCut(zip, next, count - 1, o.files, inflate);
        CutLater(zip, at, count, files, inflate);
      }
    }
  }

  lemma StopsHere(zip: seq<byte>, at: nat, count: nat, files: map<Path, seq<byte>>, inflate: Inflate)
    requires count > 0 && Stepped(zip, at, files, inflate).error.Some?
    ensures ReachesCut(zip, at, count, inflate) <==> Stepped(zip, at, files, inflate).error == Some(OutOfBounds)
  {
    OutOfBoundsMeans(zip, at);
    assert CutAfter(zip, at, 0, inflate) <==> EntryAt(zip, at) == Err(OutOfBounds);
    if EntryAt(zip, at).Ok? {
      PutFailsAlike(files, EntryAt(zip, at).value.0, inflate);
    }
    forall i: nat | i > 0 ensures Reached(zip, at, i, inflate) == None {
    }
  }

  lemma CutLater(zip: seq<byte>, at: nat, count: nat, files: map<Path, seq<byte>>, inflate: Inflate)
    requires count > 0 && EntryAt(zip, at).Ok? && Stepped(zip, at, files, inflate).error.None?
    ensures ReachesCut(zip, at, count, inflate) <==> ReachesCut(zip, EntryAt(zip, at).value.1, count - 1, inflate)
  {
    var next := EntryAt(zip, at).value.1;
    OutOfBoundsMeans(zip, at);
    PutFailsAlike(files, EntryAt(zip, at).value.0, inflate);
    assert !CutAfter(zip, at, 0, inflate);
    forall i: nat ensures CutAfter(zip, at, i + 1, inflate) <==> CutAfter(zip, next, i, inflate) {
    }
    if ReachesCut(zip, at, count, inflate) {
      var i: nat :| i < count && CutAfter(zip, at, i, inflate);
      assert CutAfter(zip, at, i - 1 + 1, inflate);
      assert CutAfter(zip, next, i - 1, inflate);
    }
    if ReachesCut(zip, next, count - 1, inflate) {
      var i: nat :| i < count - 1 && CutAfter(zip, next, i, inflate);
      assert CutAfter(zip, at, i + 1, inflate);
    }
  }

  /** On any bytes the program is stopped by a read past the end exactly when there is an end record
      and, among the entries it counts, one that is reached takes such a slice. */
  lemma UnzipReadsInside(zip: seq<byte>, files: map<Path, seq<byte>>, inflate: Inflate)
    ensures Unzipped(zip, files, inflate).error == Some(OutOfBounds) <==>
              LastEnd(zip, |zip|).Some?
              && var e := LastEnd(zip, |zip|).value; ReachesCut(zip, U32At(zip, e + 16), U16At(zip, e + 10), inflate)
  {
    var e := LastEnd(zip, |zip|);
    if e.Some? {
      WalkReachesCut(zip, U32At(zip, e.value + 16), U16At(zip, e.value + 10), files, inflate);
    }
  }
}
