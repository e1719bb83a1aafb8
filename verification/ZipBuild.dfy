/** Writing a ZIP archive, and reading it back: for any number of entries, stored or deflated, with
    any extra fields and comments, and whatever stands in the octets a reader does not look at. */
module ZipBuild {
  import opened Wrappers
  import opened Bytes
  import opened ZipPaths
  import opened Zip

  /** The octets of the two headers that unpacking does not look at: of the local one, and of the
      central one before the method, before the compressed size, before the name's length and before
      the local header's place. */
  datatype Unread = Unread(local: seq<byte>, a: seq<byte>, b: seq<byte>, c: seq<byte>, d: seq<byte>)

  datatype Member = Member(raw: Raw, localExtra: seq<byte>, extra: seq<byte>, comment: seq<byte>, unread: Unread)

  predicate Fits(m: Member) {
    && |m.raw.name| < U16 && |m.localExtra| < U16 && |m.extra| < U16 && |m.comment| < U16 && |m.raw.data| < U32
    && |m.unread.local| == 22 && |m.unread.a| == 6 && |m.unread.b| == 8 && |m.unread.c| == 4 && |m.unread.d| == 8
  }

  predicate AllFit(ms: seq<Member>) {
    forall m <- ms :: Fits(m)
  }

  function LocalBytes(m: Member): seq<byte>
    requires Fits(m)
  {
    LOCAL + (m.unread.local + (Le16Bytes(|m.raw.name|)
        + (Le16Bytes(|m.localExtra|) + (m.raw.name + (m.localExtra + m.raw.data)))))
  }

  function CentralFront(m: Member): seq<byte>
    requires Fits(m)
  {
    CENTRAL + (m.unread.a + (Le16Bytes(m.raw.m) + (m.unread.b + (Le32Bytes(|m.raw.data|) + m.unread.c))))
  }

  function CentralBack(m: Member, local: u32): seq<byte>
    requires Fits(m)
  {
    Le16Bytes(|m.raw.name|) + (Le16Bytes(|m.extra|) + (Le16Bytes(|m.comment|) + (m.unread.d + (Le32Bytes(local)
    + (m.raw.name + (m.extra + m.comment))))))
  }

  function CentralBytes(m: Member, local: u32): seq<byte>
    requires Fits(m)
  {
    CentralFront(m) + CentralBack(m, local)
  }

  function EndBytes(count: u16, start: u32, six: seq<byte>, four: seq<byte>, tail: seq<byte>): seq<byte> {
    END + (six + (Le16Bytes(count) + (four + (Le32Bytes(start) + tail))))
  }

  function Flat(parts: seq<seq<byte>>): seq<byte> {
    if parts == [] then [] else parts[0] + Flat(parts[1..])
  }

  /** The local headers with their data. */
  function LocalParts(ms: seq<Member>): (parts: seq<seq<byte>>)
    requires AllFit(ms)
    ensures |parts| == |ms|
  {
    if ms == [] then [] else assert ms[0] in ms; [LocalBytes(ms[0])] + LocalParts(ms[1..])
  }

  function Locals(ms: seq<Member>): seq<byte>
    requires AllFit(ms)
  {
    Flat(LocalParts(ms))
  }

  /** The headers of the central directory, when the first local header stands at a place. */
  function CentralParts(ms: seq<Member>, local: nat): (parts: seq<seq<byte>>)
    requires AllFit(ms) && local + |Locals(ms)| < U32
    ensures |parts| == |ms|
  {
    if ms == [] then []
    else
      LocalsCons(ms);
      [CentralBytes(ms[0], local)] + CentralParts(ms[1..], local + |LocalBytes(ms[0])|)
  }

  function Centrals(ms: seq<Member>, local: nat): seq<byte>
    requires AllFit(ms) && local + |Locals(ms)| < U32
  {
    Flat(CentralParts(ms, local))
  }

  lemma TailFits(ms: seq<Member>)
    requires ms != [] && AllFit(ms)
    ensures Fits(ms[0]) && AllFit(ms[1..])
  {
    assert ms[0] in ms;
    assert forall x <- ms[1..] :: x in ms;
  }

  lemma LocalsCons(ms: seq<Member>)
    requires ms != [] && AllFit(ms)
    ensures Fits(ms[0]) && AllFit(ms[1..])
    ensures |Locals(ms)| == |LocalBytes(ms[0])| + |Locals(ms[1..])|
  {
    TailFits(ms);
    FlatCons(LocalBytes(ms[0]), LocalParts(ms[1..]));
  }

  lemma FlatCons(first: seq<byte>, rest: seq<seq<byte>>)
    ensures Flat([first] + rest) == first + Flat(rest)
  {
    assert ([first] + rest)[1..] == rest;
  }

  /** The first part stands where they all stand, and the others behind it. */
  lemma FlatSplit(zip: seq<byte>, at: nat, first: seq<byte>, rest: seq<seq<byte>>)
    requires StandsAt(zip, at, Flat([first] + rest))
    ensures StandsAt(zip, at, first) && StandsAt(zip, at + |first|, Flat(rest))
  {
    FlatCons(first, rest);
    StandsSplit(zip, at, first, Flat(rest));
  }

  // ----- reading headers back -----

  lemma LocalSplit(zip: seq<byte>, at: nat, front: seq<byte>, n: seq<byte>, e: seq<byte>, name: seq<byte>,
                   extra: seq<byte>, data: seq<byte>)
    requires StandsAt(zip, at, LOCAL + (front + (n + (e + (name + (extra + data))))))
    requires |front| == 22 && |n| == 2 && |e| == 2
    ensures StandsAt(zip, at, LOCAL) && StandsAt(zip, at + 26, n) && StandsAt(zip, at + 28, e)
    ensures StandsAt(zip, at + 30 + |name| + |extra|, data)
  {
    StandsSplit(zip, at, LOCAL, front + (n + (e + (name + (extra + data)))));
    StandsSplit(zip, at + 4, front, n + (e + (name + (extra + data))));
    StandsSplit(zip, at + 26, n, e + (name + (extra + data)));
    StandsSplit(zip, at + 28, e, name + (extra + data));
    StandsSplit(zip, at + 30, name, extra + data);
    StandsSplit(zip, at + 30 + |name|, extra, data);
  }

  /** An entry's data is found behind its local header, whatever extra field that header has. */
  lemma DataBack(zip: seq<byte>, at: nat, m: Member)
    requires Fits(m) && StandsAt(zip, at, LocalBytes(m))
    ensures DataAt(zip, at, |m.raw.data|) == Ok(m.raw.data)
  {
    var n, e := Le16Bytes(|m.raw.name|), Le16Bytes(|m.localExtra|);
    LocalSplit(zip, at, m.unread.local, n, e, m.raw.name, m.localExtra, m.raw.data);
    Le16At(zip, at + 26, |m.raw.name|);
    Le16At(zip, at + 28, |m.localExtra|);
  }

  lemma FrontParts(zip: seq<byte>, at: nat, a: seq<byte>, m: seq<byte>, b: seq<byte>, len: seq<byte>, c: seq<byte>)
    requires StandsAt(zip, at, CENTRAL + (a + (m + (b + (len + c)))))
    requires |a| == 6 && |m| == 2 && |b| == 8 && |len| == 4
    ensures StandsAt(zip, at, CENTRAL) && StandsAt(zip, at + 10, m) && StandsAt(zip, at + 20, len)
  {
    StandsSplit(zip, at, CENTRAL, a + (m + (b + (len + c))));
    StandsSplit(zip, at + 4, a, m + (b + (len + c)));
    StandsSplit(zip, at + 10, m, b + (len + c));
    StandsSplit(zip, at + 12, b, len + c);
    StandsSplit(zip, at + 20, len, c);
  }

  lemma BackParts(zip: seq<byte>, at: nat, n: seq<byte>, e: seq<byte>, k: seq<byte>, d: seq<byte>, l: seq<byte>,
                  name: seq<byte>, rest: seq<byte>)
    requires StandsAt(zip, at, n + (e + (k + (d + (l + (name + rest))))))
    requires |n| == 2 && |e| == 2 && |k| == 2 && |d| == 8 && |l| == 4
    ensures StandsAt(zip, at, n) && StandsAt(zip, at + 2, e) && StandsAt(zip, at + 4, k)
    ensures StandsAt(zip, at + 14, l) && StandsAt(zip, at + 18, name)
  {
    StandsSplit(zip, at, n, e + (k + (d + (l + (name + rest)))));
    StandsSplit(zip, at + 2, e, k + (d + (l + (name + rest))));
    StandsSplit(zip, at + 4, k, d + (l + (name + rest)));
    StandsSplit(zip, at + 6, d, l + (name + rest));
    StandsSplit(zip, at + 14, l, name + rest);
    StandsSplit(zip, at + 18, name, rest);
  }

  lemma FrontReads(zip: seq<byte>, at: nat, m: Member)
    requires Fits(m) && StandsAt(zip, at, CentralFront(m))
    ensures SignatureAt(zip, at, CENTRAL) && at + 28 <= |zip|
    ensures U16At(zip, at + 10) == m.raw.m && U32At(zip, at + 20) == |m.raw.data|
  {
    FrontParts(zip, at, m.unread.a, Le16Bytes(m.raw.m), m.unread.b, Le32Bytes(|m.raw.data|), m.unread.c);
    Le16At(zip, at + 10, m.raw.m);
    Le32At(zip, at + 20, |m.raw.data|);
  }

  lemma BackReads(zip: seq<byte>, at: nat, m: Member, local: u32)
    requires Fits(m) && StandsAt(zip, at, CentralBack(m, local))
    ensures at + 18 + |m.raw.name| <= |zip|
    ensures U16At(zip, at) == |m.raw.name| && U16At(zip, at + 2) == |m.extra| && U16At(zip, at + 4) == |m.comment|
    ensures U32At(zip, at + 14) == local && zip[at + 18..at + 18 + |m.raw.name|] == m.raw.name
  {
    var n, e, k := Le16Bytes(|m.raw.name|), Le16Bytes(|m.extra|), Le16Bytes(|m.comment|);
    BackParts(zip, at, n, e, k, m.unread.d, Le32Bytes(local), m.raw.name, m.extra + m.comment);
    Le16At(zip, at, |m.raw.name|);
    Le16At(zip, at + 2, |m.extra|);
    Le16At(zip, at + 4, |m.comment|);
    Le32At(zip, at + 14, local);
  }

  /** An entry is read back from its two headers, and the walk goes on behind the central one. */
  lemma EntryBack(zip: seq<byte>, at: nat, m: Member, local: u32, next: nat)
    requires Fits(m) && StandsAt(zip, at, CentralBytes(m, local)) && StandsAt(zip, local, LocalBytes(m))
    requires next == at + |CentralBytes(m, local)|
    ensures EntryAt(zip, at) == Ok((m.raw, next))
  {
    StandsSplit(zip, at, CentralFront(m), CentralBack(m, local));
    CentralLen(m, local);
    FrontReads(zip, at, m);
    BackReads(zip, at + 28, m, local);
    DataBack(zip, local, m);
    EntryIs(zip, at, m.raw, |m.extra|, |m.comment|, local, next);
  }

  lemma CentralLen(m: Member, local: u32)
    requires Fits(m)
    ensures |CentralFront(m)| == 28
    ensures |CentralBytes(m, local)| == CENTRAL_LEN + |m.raw.name| + |m.extra| + |m.comment|
  {
  }

  lemma EntryIs(zip: seq<byte>, at: nat, raw: Raw, extra: nat, comment: nat, local: nat, next: nat)
    requires SignatureAt(zip, at, CENTRAL) && at + CENTRAL_LEN + |raw.name| <= |zip|
    requires U16At(zip, at + 10) == raw.m && U32At(zip, at + 20) == |raw.data|
    requires U16At(zip, at + 28) == |raw.name| && U16At(zip, at + 30) == extra && U16At(zip, at + 32) == comment
    requires U32At(zip, at + 42) == local && zip[at + CENTRAL_LEN..at + CENTRAL_LEN + |raw.name|] == raw.name
    requires DataAt(zip, local, |raw.data|) == Ok(raw.data)
    requires next == at + CENTRAL_LEN + |raw.name| + extra + comment
    ensures EntryAt(zip, at) == Ok((raw, next))
  {
  }

  // ----- the walk -----

  /** Everything an archive's entries write, in their order. */
  function Extracted(ms: seq<Member>, files: map<Path, seq<byte>>, inflate: Inflate): Outcome {
    if ms == [] then Outcome(files, None)
    else
      var o := Put(files, ms[0].raw, inflate);
      if o.error.Some? then o else Extracted(ms[1..], o.files, inflate)
  }

  /** From a place on, these entries are read, one after the other. */
  ghost predicate ReadsAs(zip: seq<byte>, at: nat, ms: seq<Member>)
    decreases |ms|
  {
    ms == [] || exists next: nat :: EntryAt(zip, at) == Ok((ms[0].raw, next)) && ReadsAs(zip, next, ms[1..])
  }

  lemma {:induction false} WalkReads(zip: seq<byte>, at: nat, ms: seq<Member>, files: map<Path, seq<byte>>,
                                     inflate: Inflate)
    requires ReadsAs(zip, at, ms)
    ensures Walk(zip, at, |ms|, files, inflate) == Extracted(ms, files, inflate)
    decreases |ms|
  {
    if ms != [] {
      var next: nat :| EntryAt(zip, at) == Ok((ms[0].raw, next)) && ReadsAs(zip, next, ms[1..]);
      var o := Put(files, ms[0].raw, inflate);
      ReadStep(zip, at, |ms|, files, inflate, ms[0].raw, next, o);
      if o.error.None? {
        WalkReads(zip, next, ms[1..], o.files, inflate);
      }
    }
  }

  lemma ReadStep(zip: seq<byte>, at: nat, count: nat, files: map<Path, seq<byte>>, inflate: Inflate, raw: Raw,
                 next: nat, o: Outcome)
    requires count > 0 && EntryAt(zip, at) == Ok((raw, next)) && o == Put(files, raw, inflate)
    ensures o.error.Some? ==> Walk(zip, at, count, files, inflate) == o
    ensures o.error.None? ==> Walk(zip, at, count, files, inflate) == Walk(zip, next, count - 1, o.files, inflate)
  {
  }

  /** A directory and the local headers it points to, laid out one after the other, are read back. */
  lemma {:induction false} LayoutReads(zip: seq<byte>, at: nat, ms: seq<Member>, local: nat)
    requires AllFit(ms) && local + |Locals(ms)| < U32
    requires StandsAt(zip, local, Locals(ms)) && StandsAt(zip, at, Centrals(ms, local))
    ensures ReadsAs(zip, at, ms)
    decreases |ms|
  {
    if ms != [] {
      var next, after := FirstReads(zip, at, ms, local);
      LayoutReads(zip, next, ms[1..], after);
    }
  }

  lemma FirstReads(zip: seq<byte>, at: nat, ms: seq<Member>, local: nat) returns (next: nat, after: nat)
    requires ms != [] && AllFit(ms) && local + |Locals(ms)| < U32
    requires StandsAt(zip, local, Locals(ms)) && StandsAt(zip, at, Centrals(ms, local))
    ensures EntryAt(zip, at) == Ok((ms[0].raw, next))
    ensures AllFit(ms[1..]) && after + |Locals(ms[1..])| < U32
    ensures StandsAt(zip, after, Locals(ms[1..])) && StandsAt(zip, next, Centrals(ms[1..], after))
  {
    after, next := local + |LocalBytes(ms[0])|, at + |CentralBytes(ms[0], local)|;
    FirstSplits(zip, at, ms, local, next, after);
    EntryBack(zip, at, ms[0], local, next);
  }

  lemma FirstSplits(zip: seq<byte>, at: nat, ms: seq<Member>, local: nat, next: nat, after: nat)
    requires ms != [] && AllFit(ms) && local + |Locals(ms)| < U32
    requires StandsAt(zip, local, Locals(ms)) && StandsAt(zip, at, Centrals(ms, local))
    requires after == local + |LocalBytes(ms[0])| && next == at + |CentralBytes(ms[0], local)|
    ensures StandsAt(zip, local, LocalBytes(ms[0])) && StandsAt(zip, at, CentralBytes(ms[0], local))
    ensures AllFit(ms[1..]) && after + |Locals(ms[1..])| < U32
    ensures StandsAt(zip, after, Locals(ms[1..])) && StandsAt(zip, next, Centrals(ms[1..], after))
  {
    LocalsCons(ms);
    FlatSplit(zip, local, LocalBytes(ms[0]), LocalParts(ms[1..]));
    FlatSplit(zip, at, CentralBytes(ms[0], local), CentralParts(ms[1..], after));
  }

  // ----- the end record -----

  lemma EndParts(zip: seq<byte>, at: nat, six: seq<byte>, n: seq<byte>, four: seq<byte>, start: seq<byte>,
                 tail: seq<byte>)
    requires StandsAt(zip, at, END + (six + (n + (four + (start + tail)))))
    requires |six| == 6 && |n| == 2 && |four| == 4 && |start| == 4
    ensures StandsAt(zip, at, END) && StandsAt(zip, at + 10, n) && StandsAt(zip, at + 16, start)
    ensures StandsAt(zip, at + 20, tail)
  {
    StandsSplit(zip, at, END, six + (n + (four + (start + tail))));
    StandsSplit(zip, at + 4, six, n + (four + (start + tail)));
    StandsSplit(zip, at + 10, n, four + (start + tail));
    StandsSplit(zip, at + 12, four, start + tail);
    StandsSplit(zip, at + 16, start, tail);
  }

  /** No place after the end record looks like one: what a comment must not contain. */
  ghost predicate NoLaterEnd(zip: seq<byte>, end: nat) {
    forall j: nat | j > end :: !EndAt(zip, j)
  }

  /** The end record is found exactly when nothing after it looks like one. */
  lemma EndIsFound(zip: seq<byte>, end: nat)
    requires EndAt(zip, end)
    ensures LastEnd(zip, |zip|) == Some(end) <==> NoLaterEnd(zip, end)
  {
    if NoLaterEnd(zip, end) {
      assert end < |zip|;
    }
  }

  /** Without a comment there is nothing after it. */
  lemma NoCommentNoLaterEnd(zip: seq<byte>, end: nat)
    requires |zip| <= end + END_LEN
    ensures NoLaterEnd(zip, end)
  {
  }

  // ----- the theorem -----

  /** Where the parts of an archive stand: anything, then the local headers and data, then the central
      directory, then the end record and the comment. */
  ghost predicate IsArchive(zip: seq<byte>, ms: seq<Member>, local: nat, start: nat, end: nat, six: seq<byte>,
                            four: seq<byte>, tail: seq<byte>) {
    && AllFit(ms) && |ms| < U16 && local + |Locals(ms)| < U32 && start < U32
    && |six| == 6 && |four| == 4 && |tail| >= 2
    && StandsAt(zip, local, Locals(ms)) && StandsAt(zip, start, Centrals(ms, local))
    && StandsAt(zip, end, EndBytes(|ms|, start, six, four, tail))
  }

  /** Every list of entries can be laid out so, one part behind the other. */
  lemma LaidOut(ms: seq<Member>, six: seq<byte>, four: seq<byte>, tail: seq<byte>) returns (zip: seq<byte>)
    requires AllFit(ms) && |ms| < U16 && |Locals(ms)| < U32 && |six| == 6 && |four| == 4 && |tail| >= 2
    ensures var start := |Locals(ms)|;
            var end := start + |Centrals(ms, 0)|;
            && IsArchive(zip, ms, 0, start, end, six, four, tail)
            && |zip| == end + |EndBytes(|ms|, start, six, four, tail)|
  {
    var a, b := Locals(ms), Centrals(ms, 0);
    var c := EndBytes(|ms|, |a|, six, four, tail);
    zip := Joined3(a, b, c);
  }

  lemma Joined3(a: seq<byte>, b: seq<byte>, c: seq<byte>) returns (s: seq<byte>)
    ensures s == a + (b + c) && StandsAt(s, 0, a) && StandsAt(s, |a|, b) && StandsAt(s, |a| + |b|, c)
  {
    s := a + (b + c);
    assert s[0..|s|] == s;
    StandsSplit(s, 0, a, b + c);
    StandsSplit(s, |a|, b, c);
  }

  lemma EndReads(zip: seq<byte>, end: nat, count: u16, start: u32, six: seq<byte>, four: seq<byte>, tail: seq<byte>)
    requires StandsAt(zip, end, EndBytes(count, start, six, four, tail)) && |six| == 6 && |four| == 4 && |tail| >= 2
    ensures EndAt(zip, end) && U16At(zip, end + 10) == count && U32At(zip, end + 16) == start
  {
    EndParts(zip, end, six, Le16Bytes(count), four, Le32Bytes(start), tail);
    Le16At(zip, end + 10, count);
    Le32At(zip, end + 16, start);
  }

  /** Unpacking an archive writes exactly what its entries say, in their order, provided its comment
      does not look like an end record. */
  lemma ArchiveRoundTrip(zip: seq<byte>, ms: seq<Member>, local: nat, start: nat, end: nat, six: seq<byte>,
                         four: seq<byte>, tail: seq<byte>, files: map<Path, seq<byte>>, inflate: Inflate)
    requires IsArchive(zip, ms, local, start, end, six, four, tail) && NoLaterEnd(zip, end)
    ensures Unzipped(zip, files, inflate) == Extracted(ms, files, inflate)
  {
    EndReads(zip, end, |ms|, start, six, four, tail);
    EndIsFound(zip, end);
    LayoutReads(zip, start, ms, local);
    WalkReads(zip, start, ms, files, inflate);
  }

  /** A comment that is itself an end record, of an empty archive. */
  function EmptyEnd(): seq<byte> {
    END + seq(18, _ => 0)
  }

  /** Any archive with that comment, and LaidOut makes one of any entries, unpacks to nothing, and
      says nothing went wrong. */
  lemma CommentHides(zip: seq<byte>, ms: seq<Member>, local: nat, start: nat, end: nat, six: seq<byte>,
                     four: seq<byte>, inflate: Inflate)
    requires IsArchive(zip, ms, local, start, end, six, four, [22, 0] + EmptyEnd()) && |zip| == end + 2 * END_LEN
    ensures Unzipped(zip, map[], inflate) == Outcome(map[], None)
  {
    CommentStands(zip, end, |ms|, start, six, four, EmptyEnd());
    HiddenBy(zip, end + END_LEN, inflate);
  }

  lemma CommentStands(zip: seq<byte>, end: nat, count: u16, start: u32, six: seq<byte>, four: seq<byte>,
                      comment: seq<byte>)
    requires StandsAt(zip, end, EndBytes(count, start, six, four, [22, 0] + comment)) && |six| == 6 && |four| == 4
    ensures StandsAt(zip, end + END_LEN, comment)
  {
    EndParts(zip, end, six, Le16Bytes(count), four, Le32Bytes(start), [22, 0] + comment);
    StandsSplit(zip, end + 20, [22, 0], comment);
  }

  lemma HiddenBy(zip: seq<byte>, at: nat, inflate: Inflate)
    requires StandsAt(zip, at, EmptyEnd()) && |zip| == at + END_LEN
    ensures Unzipped(zip, map[], inflate) == Outcome(map[], None)
  {
    var comment := zip[at..at + END_LEN];
    assert zip[at..at + 4] == comment[..4] == END;
    assert zip[at + 10] == comment[10] == 0 && zip[at + 11] == comment[11] == 0;
    EndIsFound(zip, at);
  }

  // ----- what the entries say -----

  /** The entry names a place below the directory and its content can be had. */
  predicate Good(m: Member, inflate: Inflate) {
    && SafeJoin(m.raw.name).Ok?
    && (!IsDirectory(m.raw.name) ==> SafeJoin(m.raw.name).value != [] && ContentOf(m.raw, inflate).Ok?)
  }

  /** The entry is the file at a path. */
  predicate IsFileAt(m: Member, path: Path) {
    !IsDirectory(m.raw.name) && SafeJoin(m.raw.name) == Ok(path)
  }

  /** The content of the last file among the entries with a path. */
  function LastContent(ms: seq<Member>, path: Path, inflate: Inflate): Option<seq<byte>>
    requires forall m <- ms :: Good(m, inflate)
  {
    if ms == [] then None
    else
      var m := ms[|ms| - 1];
      assert m in ms && Good(m, inflate);
      if IsFileAt(m, path) then Some(ContentOf(m.raw, inflate).value)
      else
        assert forall x <- ms[..|ms| - 1] :: x in ms;
        LastContent(ms[..|ms| - 1], path, inflate)
  }

  lemma {:induction false} ExtractedAppend(a: seq<Member>, m: Member, files: map<Path, seq<byte>>, inflate: Inflate)
    ensures var o := Extracted(a, files, inflate);
            Extracted(a + [m], files, inflate) == if o.error.Some? then o else Put(o.files, m.raw, inflate)
    decreases |a|
  {
    var all := a + [m];
    if a == [] {
      assert all[1..] == [];
    } else {
      assert all[1..] == a[1..] + [m];
      var o := Put(files, a[0].raw, inflate);
      if o.error.None? {
        ExtractedAppend(a[1..], m, o.files, inflate);
      }
    }
  }

  /** Unpacking good entries never fails, and leaves at every path the content of the last entry that
      is the file there; a path no entry names keeps what it had. */
  lemma {:induction false} ExtractedMeans(ms: seq<Member>, files: map<Path, seq<byte>>, inflate: Inflate, path: Path)
    requires forall m <- ms :: Good(m, inflate)
    ensures var o := Extracted(ms, files, inflate);
            var last := LastContent(ms, path, inflate);
            && o.error.None?
            && (last.Some? ==> path in o.files && o.files[path] == last.value)
            && (last.None? ==> (path in o.files <==> path in files) && (path in files ==> o.files[path] == files[path]))
    decreases |ms|
  {
    if ms != [] {
      var front, m := ms[..|ms| - 1], ms[|ms| - 1];
      assert m in ms && ms == front + [m];
      assert forall x <- front :: x in ms;
      ExtractedMeans(front, files, inflate, path);
      ExtractedAppend(front, m, files, inflate);
    }
  }

  /** The round trip, path by path: into an empty directory an archive of good entries leaves exactly
      its map from names to contents, later entries winning. */
  lemma ZipRoundTrip(zip: seq<byte>, ms: seq<Member>, local: nat, start: nat, end: nat, six: seq<byte>,
                     four: seq<byte>, tail: seq<byte>, inflate: Inflate, path: Path)
    requires IsArchive(zip, ms, local, start, end, six, four, tail) && NoLaterEnd(zip, end)
    requires forall m <- ms :: Good(m, inflate)
    ensures var o := Unzipped(zip, map[], inflate);
            && o.error.None?
            && (if path in o.files then Some(o.files[path]) else None) == LastContent(ms, path, inflate)
  {
    ArchiveRoundTrip(zip, ms, local, start, end, six, four, tail, map[], inflate);
    ExtractedMeans(ms, map[], inflate, path);
  }
}
