/** Where an archive entry may land: the components of its name, joined onto a directory. */
module ZipPaths {
  import opened Wrappers
  import opened Bytes

  type Path = seq<seq<byte>>

  datatype ZipError =
    | NotAZip | BadDirectory | NoLocalHeader | PastEnd | OutOfBounds
    | Absolute | Climbs | NotAFile | Inflating | UnknownMethod(m: u16)

  const SLASH: byte := 47
  const BACKSLASH: byte := 92
  const COLON: byte := 58
  const DOT: byte := 46

  predicate IsSeparator(c: byte) {
    c == SLASH || c == BACKSLASH
  }

  /** The parts of a name between its separators: one more than there are separators. */
  function Split(name: seq<byte>): (parts: seq<seq<byte>>)
    ensures parts != []
  {
    if name == [] then [[]]
    else
      var rest := Split(name[1..]);
      if IsSeparator(name[0]) then [[]] + rest else [[name[0]] + rest[0]] + rest[1..]
  }

  predicate Starts(name: seq<byte>) {
    name != [] && IsSeparator(name[0])
  }

  /** Parts that name nothing are dropped; one that climbs is refused. */
  function Kept(parts: seq<seq<byte>>): Result<Path, ZipError> {
    if parts == [] then Ok([])
    else if parts[0] == [] || parts[0] == [DOT] then Kept(parts[1..])
    else if parts[0] == [DOT, DOT] then Err(Climbs)
    else
      match Kept(parts[1..])
      case Err(e) => Err(e)
      case Ok(rest) => Ok([parts[0]] + rest)
  }

  function SafeJoin(name: seq<byte>): Result<Path, ZipError> {
    if Starts(name) || COLON in name then Err(Absolute) else Kept(Split(name))
  }

  method JoinParts(name: seq<byte>) returns (r: Result<Path, ZipError>)
    ensures r == SafeJoin(name)
  {
    if Starts(name) || COLON in name {
      return Err(Absolute);
    }
    var parts := SplitParts(name);
    var out: Path := [];
    assert parts[0..] == parts && forall rest: Path :: out + rest == rest;
    for i := 0 to |parts|
      invariant Kept(parts) == match Kept(parts[i..]) case Err(e) => Err(e) case Ok(rest) => Ok(out + rest)
    {
      var part := parts[i];
      assert parts[i..][0] == part && parts[i..][1..] == parts[i + 1..];
      if part == [] || part == [DOT] {
        continue;
      }
      if part == [DOT, DOT] {
        return Err(Climbs);
      }
      assert forall rest: Path :: out + ([part] + rest) == (out + [part]) + rest;
      out := out + [part];
    }
    assert out + [] == out;
    return Ok(out);
  }

  method SplitParts(name: seq<byte>) returns (parts: seq<seq<byte>>)
    ensures parts == Split(name)
  {
    parts := [[]];
    var i := |name|;
    assert name[i..] == [];
    while i > 0
      invariant 0 <= i <= |name| && parts == Split(name[i..])
    {
      i := i - 1;
      assert name[i..][1..] == name[i + 1..];
      parts := if IsSeparator(name[i]) then [[]] + parts else [[name[i]] + parts[0]] + parts[1..];
    }
    assert name[0..] == name;
  }

  /** A component that stays in its directory. */
  predicate Safe(part: seq<byte>) {
    part != [] && part != [DOT] && part != [DOT, DOT] && SLASH !in part && BACKSLASH !in part && COLON !in part
  }

  lemma {:induction false} SplitIsClean(name: seq<byte>)
    ensures forall p <- Split(name) :: SLASH !in p && BACKSLASH !in p && (COLON !in name ==> COLON !in p)
    decreases |name|
  {
    if name != [] {
      var rest := Split(name[1..]);
      SplitIsClean(name[1..]);
      assert rest[0] in rest;
      assert forall p <- rest[1..] :: p in rest;
    }
  }

  lemma {:induction false} KeptAreParts(parts: seq<seq<byte>>)
    ensures Kept(parts).Ok? ==> forall p <- Kept(parts).value :: p in parts && p != [] && p != [DOT] && p != [DOT, DOT]
    ensures Kept(parts).Err? ==> Kept(parts).error == Climbs
    ensures Kept(parts).Err? <==> [DOT, DOT] in parts
    decreases |parts|
  {
    if parts != [] {
      KeptAreParts(parts[1..]);
      assert parts == [parts[0]] + parts[1..];
    }
  }

  /** Whatever the name, what it is joined to is the directory and components that stay below it; it
      is refused exactly when it is absolute or one of its parts is `..`. */
  lemma JoinIsSafe(name: seq<byte>)
    ensures SafeJoin(name).Ok? ==> forall p <- SafeJoin(name).value :: Safe(p)
    ensures SafeJoin(name).Err? <==> Starts(name) || COLON in name || [DOT, DOT] in Split(name)
  {
    SplitIsClean(name);
    KeptAreParts(Split(name));
  }

  // ----- names made of components -----

  function Joined(parts: Path): seq<byte> {
    if parts == [] then []
    else if |parts| == 1 then parts[0]
    else parts[0] + [SLASH] + Joined(parts[1..])
  }

  lemma {:induction false} SplitWord(word: seq<byte>, rest: seq<byte>)
    requires SLASH !in word && BACKSLASH !in word
    ensures Split(word) == [word]
    ensures Split(word + [SLASH] + rest) == [word] + Split(rest)
    decreases |word|
  {
    var all := word + [SLASH] + rest;
    if word == [] {
      assert all[1..] == rest;
    } else {
      SplitWord(word[1..], rest);
      assert all[1..] == word[1..] + [SLASH] + rest;
      assert [word[0]] + word[1..] == word;
    }
  }

  /** A name made of safe components is joined to exactly those components. */
  lemma {:induction false} JoinBack(parts: Path)
    requires parts != [] && forall p <- parts :: Safe(p)
    ensures SafeJoin(Joined(parts)) == Ok(parts)
  {
    SplitBack(parts);
    NoColon(parts);
    KeptAll(parts);
    assert parts[0] in parts;
  }

  lemma {:induction false} SplitBack(parts: Path)
    requires parts != [] && forall p <- parts :: Safe(p)
    ensures Split(Joined(parts)) == parts
    decreases |parts|
  {
    assert parts[0] in parts;
    if |parts| == 1 {
      SplitWord(parts[0], []);
    } else {
      SplitWord(parts[0], Joined(parts[1..]));
      SplitBack(parts[1..]);
    }
  }

  lemma {:induction false} NoColon(parts: Path)
    requires parts != [] && forall p <- parts :: Safe(p)
    ensures COLON !in Joined(parts) && !Starts(Joined(parts))
    decreases |parts|
  {
    assert parts[0] in parts;
    if |parts| > 1 {
      NoColon(parts[1..]);
    }
    assert Joined(parts)[0] == parts[0][0];
  }

  lemma {:induction false} KeptAll(parts: Path)
    requires forall p <- parts :: Safe(p)
    ensures Kept(parts) == Ok(parts)
    decreases |parts|
  {
    if parts != [] {
      assert parts[0] in parts;
      KeptAll(parts[1..]);
      assert parts == [parts[0]] + parts[1..];
    }
  }
}
