/** The part of the protobuf wire format that is read here: base-128 numbers, and the
    length-delimited fields of a message. */
module Protobuf {
  import opened Wrappers
  import opened Bytes

  const U64: int := 0x1_0000_0000_0000_0000

  type u64 = x: int | 0 <= x < 0x1_0000_0000_0000_0000

  // ----- base-128 numbers -----

  /** The first number that needs more than the groups from the k-th of ten on. */
  function Limit(k: nat): (n: nat)
    requires k <= 9
    ensures n >= 2
    decreases 9 - k
  {
    if k == 9 then 2 else 128 * Limit(k + 1)
  }

  lemma LimitIs64Bits()
    ensures Limit(0) == U64
  {
    assert Limit(8) == 256;
    assert Limit(7) == 0x8000;
    assert Limit(6) == 0x40_0000;
    assert Limit(5) == 0x2000_0000;
    assert Limit(4) == 0x10_0000_0000;
    assert Limit(3) == 0x800_0000_0000;
    assert Limit(2) == 0x4_0000_0000_0000;
    assert Limit(1) == 0x200_0000_0000_0000;
  }

  /** What the k-th group of a number adds, in units of its weight. The tenth reaches past 64 bits
      and keeps only its lowest bit. */
  function GroupOf(b: byte, k: nat): nat {
    if k == 9 then b as nat % 2 else b as nat % 128
  }

  /** The number whose k-th group stands at a place, and the place after it. */
  function Number(buf: seq<byte>, at: nat, k: nat): (r: Option<(nat, nat)>)
    ensures r.Some? ==> at < r.value.1 <= |buf|
    ensures r.Some? ==> k <= 9 && r.value.0 < Limit(k)
    decreases 10 - k
  {
    if k > 9 || at >= |buf| then None
    else
      var group := GroupOf(buf[at], k);
      if buf[at] < 128 then Some((group, at + 1))
      else
        match Number(buf, at + 1, k + 1)
        case None => None
        case Some((v, end)) => Some((group + 128 * v, end))
  }

  /** The encoding of a number: seven bits an octet, lowest first. */
  function Encode(v: nat): (s: seq<byte>)
    ensures |s| > 0
  {
    if v < 128 then [v as byte] else [(128 + v % 128) as byte] + Encode(v / 128)
  }

  /** Reading inverts writing, from the k-th group on, wherever the number stands. */
  lemma {:induction false} NumberBack(buf: seq<byte>, at: nat, v: nat, k: nat)
    requires k <= 9 && v < Limit(k) && StandsAt(buf, at, Encode(v))
    ensures Number(buf, at, k) == Some((v, at + |Encode(v)|))
    decreases v
  {
    StandsAlone(buf, at, Encode(v));
    if v >= 128 {
      StandsSplit(buf, at, Encode(v)[..1], Encode(v / 128));
      assert Encode(v) == Encode(v)[..1] + Encode(v / 128);
      NumberBack(buf, at + 1, v / 128, k + 1);
    }
  }

  /** Every 64-bit number is read back from its encoding, and the cursor moves by its length. */
  lemma VarintRoundTrip(buf: seq<byte>, at: nat, v: u64)
    requires StandsAt(buf, at, Encode(v))
    ensures Number(buf, at, 0) == Some((v, at + |Encode(v)|))
  {
    LimitIs64Bits();
    NumberBack(buf, at, v, 0);
  }

  function Weight(k: nat): (w: nat)
    ensures w > 0
  {
    if k == 0 then 1 else 128 * Weight(k - 1)
  }

  lemma WeightLimit(k: nat)
    requires k <= 9
    ensures Weight(k) * Limit(k) == U64
    decreases 9 - k
  {
    if k == 9 {
      assert Weight(3) == 0x20_0000;
      assert Weight(6) == 0x400_0000_0000;
    } else {
      WeightLimit(k + 1);
      assert Weight(k) * (128 * Limit(k + 1)) == (128 * Weight(k)) * Limit(k + 1);
    }
  }

  /** A group shifted to its place in 64 bits, whatever falls off the top. */
  lemma GroupShifted(b: byte, k: nat)
    requires k <= 9
    ensures b as nat % 128 * Weight(k) % U64 == GroupOf(b, k) * Weight(k)
  {
    WeightLimit(k);
    if k == 9 {
      TopGroup(b as nat % 128);
      assert Weight(k) == U64 / 2 && b as nat % 128 % 2 == b as nat % 2;
    } else {
      LowGroup(b as nat % 128, Weight(k), Limit(k));
    }
  }

  lemma TopGroup(g: nat)
    ensures g * (U64 / 2) % U64 == g % 2 * (U64 / 2)
  {
    var h, r := g / 2, g % 2;
    assert g == 2 * h + r;
    assert g * (U64 / 2) == h * U64 + r * (U64 / 2);
  }

  lemma LowGroup(g: nat, w: nat, limit: nat)
    requires g < 128 <= limit && w * limit == U64
    ensures g * w % U64 == g * w
  {
    assert g * w <= 127 * w && 128 * w <= w * limit;
    if w > 0 {
      assert g * w < U64;
    }
  }

  /** Reads a number, moving the cursor past it. Adding the shifted group is the code's bitwise or:
      the groups are disjoint. */
  method Varint(buf: seq<byte>, from: nat) returns (value: Option<u64>, at: nat)
    ensures from <= at
    ensures match Number(buf, from, 0)
            case None => value == None
            case Some((v, end)) => value == Some(v) && at == end
  {
    at := from;
    var sum: nat := 0;
    var shift := 0;
    ghost var k := 0;
    ghost var all := Number(buf, from, 0);
    LimitIs64Bits();
    while true
      invariant from <= at && k <= 9 && shift == 7 * k
      invariant all.None? <==> Number(buf, at, k).None?
      invariant all.Some? ==> all.value.1 == Number(buf, at, k).value.1
                              && all.value.0 == sum + Weight(k) * Number(buf, at, k).value.0
      decreases 10 - k
    {
      if at >= |buf| {
        return None, at;
      }
      var b := buf[at];
      ghost var here := Number(buf, at, k);
      ghost var rest := Number(buf, at + 1, k + 1);
      at := at + 1;
      var group := Shifted(b, shift, k);
      sum := sum + group;
      if b < 128 {
        assert Weight(k) * GroupOf(b, k) == group;
        return Some(sum), at;
      }
      shift := shift + 7;
      if shift > 63 {
        return None, at;
      }
      if rest.Some? {
        Regroup(Weight(k), GroupOf(b, k), rest.value.0);
      }
      k := k + 1;
    }
  }

  lemma Regroup(w: nat, group: nat, v: nat)
    ensures w * (group + 128 * v) == group * w + 128 * w * v
  {
  }

  /** (b & 0x7f) << shift, in 64 bits. */
  method Shifted(b: byte, shift: nat, ghost k: nat) returns (r: u64)
    requires k <= 9 && shift == 7 * k
    ensures r == GroupOf(b, k) * Weight(k)
  {
    var w := 1;
    for i := 0 to shift / 7
      invariant w == Weight(i)
    {
      w := 128 * w;
    }
    GroupShifted(b, k);
    r := b as nat % 128 * w % U64;
  }

  // ----- the fields of a message -----

  datatype Span = Span(from: nat, to: nat)

  /** Where a field of a wire type ends, if it is whole, and for a length-delimited one what it spans. */
  datatype Step = Broken | Past(next: nat) | Delimited(span: Span)

  function StepAt(buf: seq<byte>, at: nat, wire: nat): (s: Step)
    ensures s.Past? ==> at <= s.next
    ensures s.Delimited? ==> at <= s.span.from <= s.span.to <= |buf|
  {
    if wire == 2 then
      match Number(buf, at, 0)
      case None => Broken
      case Some((len, from)) => if from + len <= |buf| then Delimited(Span(from, from + len)) else Broken
    else if wire == 0 then
      match Number(buf, at, 0)
      case None => Broken
      case Some((_, end)) => Past(end)
    else if wire == 5 then Past(at + 4)
    else if wire == 1 then Past(at + 8)
    else Broken
  }

  /** The spans of the length-delimited fields of a number, in order. */
  function Spans(buf: seq<byte>, at: nat, want: nat): seq<Span>
    decreases |buf| - at
  {
    if at >= |buf| then []
    else
      match Number(buf, at, 0)
      case None => []
      case Some((tag, next)) =>
        match StepAt(buf, next, tag % 8)
        case Broken => []
        case Past(end) => Spans(buf, end, want)
        case Delimited(span) => (if tag / 8 == want then [span] else []) + Spans(buf, span.to, want)
  }

  /** Every span is a slice of the buffer. */
  predicate Inside(buf: seq<byte>, spans: seq<Span>) {
    forall s <- spans :: s.from <= s.to <= |buf|
  }

  function Slices(buf: seq<byte>, spans: seq<Span>): seq<seq<byte>>
    requires Inside(buf, spans)
  {
    seq(|spans|, i requires 0 <= i < |spans| => assert spans[i] in spans; buf[spans[i].from..spans[i].to])
  }

  /** The spans come one after the other, from a place on. */
  predicate InOrder(at: nat, spans: seq<Span>) {
    && (forall s <- spans :: at <= s.from)
    && forall i, j | 0 <= i < j < |spans| :: spans[i].to <= spans[j].from
  }

  lemma {:induction false} SpansInside(buf: seq<byte>, at: nat, want: nat)
    ensures Inside(buf, Spans(buf, at, want))
    decreases |buf| - at
  {
    if at < |buf| {
      match Number(buf, at, 0) {
        case None =>
        case Some((tag, next)) =>
          match StepAt(buf, next, tag % 8) {
            case Broken =>
            case Past(end) => SpansInside(buf, end, want);
            case Delimited(span) => SpansInside(buf, span.to, want);
          }
      }
    }
  }

  /** On any bytes at all, every span lies inside the buffer, and no two overlap. */
  lemma {:induction false} SpansInOrder(buf: seq<byte>, at: nat, want: nat)
    ensures Inside(buf, Spans(buf, at, want)) && InOrder(at, Spans(buf, at, want))
    decreases |buf| - at
  {
    SpansInside(buf, at, want);
    if at < |buf| {
      match Number(buf, at, 0) {
        case None =>
        case Some((tag, next)) =>
          match StepAt(buf, next, tag % 8) {
            case Broken =>
            case Past(end) => SpansInOrder(buf, end, want);
            case Delimited(span) => SpansInOrder(buf, span.to, want);
          }
      }
    }
  }

  lemma SlicesAdd(buf: seq<byte>, a: seq<Span>, b: seq<Span>)
    requires Inside(buf, a) && Inside(buf, b)
    ensures Inside(buf, a + b)
    ensures Slices(buf, a + b) == Slices(buf, a) + Slices(buf, b)
  {
  }

  /** The payloads a scan finds from a place on. */
  function FieldsFrom(buf: seq<byte>, at: nat, want: nat): seq<seq<byte>>
    decreases |buf| - at
  {
    if at >= |buf| then []
    else
      match Number(buf, at, 0)
      case None => []
      case Some((tag, next)) =>
        match StepAt(buf, next, tag % 8)
        case Broken => []
        case Past(end) => FieldsFrom(buf, end, want)
        case Delimited(span) =>
          (if tag / 8 == want then [buf[span.from..span.to]] else []) + FieldsFrom(buf, span.to, want)
  }

  /** The payloads are what the spans of `SpansInOrder` cut out. */
  lemma {:induction false} FieldsAreSlices(buf: seq<byte>, at: nat, want: nat)
    ensures Inside(buf, Spans(buf, at, want)) && FieldsFrom(buf, at, want) == Slices(buf, Spans(buf, at, want))
    decreases |buf| - at
  {
    SpansInside(buf, at, want);
    if at < |buf| {
      match Number(buf, at, 0) {
        case None =>
        case Some((tag, next)) =>
          match StepAt(buf, next, tag % 8) {
            case Broken =>
            case Past(end) => FieldsAreSlices(buf, end, want);
            case Delimited(span) =>
              FieldsAreSlices(buf, span.to, want);
              SlicesAdd(buf, if tag / 8 == want then [span] else [], Spans(buf, span.to, want));
          }
      }
    }
  }

  function Fields(buf: seq<byte>, want: nat): seq<seq<byte>> {
    FieldsFrom(buf, 0, want)
  }

  lemma TagParts(number: nat, wire: nat)
    requires wire < 8
    ensures (number * 8 + wire) % 8 == wire && (number * 8 + wire) / 8 == number
  {
  }

  /** What a step adds to the list, if the field has the number asked for. */
  function Cut(buf: seq<byte>, step: Step, wanted: bool): seq<seq<byte>>
    requires step.Delimited? ==> step.span.from <= step.span.to <= |buf|
  {
    if step.Delimited? && wanted then [buf[step.span.from..step.span.to]] else []
  }

  /** And what comes after it. */
  function RestOf(buf: seq<byte>, step: Step, want: nat): seq<seq<byte>> {
    match step
    case Broken => []
    case Past(end) => FieldsFrom(buf, end, want)
    case Delimited(span) => FieldsFrom(buf, span.to, want)
  }

  /** What one tag makes of a scan. */
  lemma TagStep(buf: seq<byte>, at: nat, want: nat, tag: nat, wire: nat, number: nat, next: nat, step: Step,
                whole: seq<seq<byte>>)
    requires Number(buf, at, 0) == Some((tag, next)) && wire == tag % 8 && number == tag / 8
    requires step == StepAt(buf, next, wire) && whole == FieldsFrom(buf, at, want)
    ensures whole == Cut(buf, step, number == want) + RestOf(buf, step, want)
  {
  }

  /** Collects the payloads of one field number as the recursive scan lists them. */
  method ScanFields(buf: seq<byte>, want: u64) returns (out: seq<seq<byte>>)
    ensures out == Fields(buf, want)
  {
    out := [];
    var at := 0;
    ghost var all := Fields(buf, want);
    ghost var rest := all;
    while at < |buf|
      invariant all == out + rest
      invariant rest == FieldsFrom(buf, at, want)
      decreases |buf| - at
    {
      var tag, next := Varint(buf, at);
      if tag.None? {
        return;
      }
      var number, wire := tag.value / 8, tag.value % 8;
      var step := TakeStep(buf, next, wire);
      var found;
      found, at, rest := TakeField(buf, at, want, tag.value, number, wire, next, step, rest);
      ghost var was := out;
      out := out + found;
      assert was + (found + rest) == out + rest;
      if step.Broken? {
        return;
      }
    }
  }

  /** What a step leaves to add to the list, and where the scan goes on. */
  method TakeField(buf: seq<byte>, from: nat, want: u64, tag: u64, number: nat, wire: nat, next: nat, step: Step,
                   ghost before: seq<seq<byte>>)
    returns (found: seq<seq<byte>>, at: nat, ghost rest: seq<seq<byte>>)
    requires from < |buf| && Number(buf, from, 0) == Some((tag, next)) && wire == tag % 8 && number == tag / 8
    requires step == StepAt(buf, next, wire) && before == FieldsFrom(buf, from, want)
    ensures before == found + rest
    ensures step.Broken? ==> rest == []
    ensures !step.Broken? ==> at > from && rest == FieldsFrom(buf, at, want)
  {
    TagStep(buf, from, want, tag, wire, number, next, step, before);
    found, at, rest := [], from, RestOf(buf, step, want);
    match step {
      case Broken =>
      case Past(end) =>
        at := end;
      case Delimited(span) =>
        if number == want {
          found := [buf[span.from..span.to]];
        }
        at := span.to;
    }
  }

  /** Moves the cursor past what follows a tag. */
  method TakeStep(buf: seq<byte>, at: nat, wire: nat) returns (step: Step)
    ensures step == StepAt(buf, at, wire)
  {
    match wire {
      case 2 =>
        var len, from := Varint(buf, at);
        step := if len.Some? && from + len.value <= |buf| then Delimited(Span(from, from + len.value)) else Broken;
      case 0 =>
        var value, end := Varint(buf, at);
        step := if value.Some? then Past(end) else Broken;
      case 5 =>
        step := Past(at + 4);
      case 1 =>
        step := Past(at + 8);
      case _ =>
        step := Broken;
    }
  }

  function FirstField(buf: seq<byte>, want: nat): Option<seq<byte>> {
    var all := Fields(buf, want);
    if all == [] then None else Some(all[0])
  }

  // ----- messages -----

  datatype Field =
    | VarintField(number: nat, value: nat)
    | Fixed64(number: nat, octets: seq<byte>)
    | Fixed32(number: nat, octets: seq<byte>)
    | Delim(number: nat, payload: seq<byte>)

  /** The field has the size its wire type says, and a tag of 64 bits. */
  predicate Fits(f: Field) {
    && f.number * 8 + 7 < U64
    && match f
       case VarintField(_, v) => v < U64
       case Fixed64(_, s) => |s| == 8
       case Fixed32(_, s) => |s| == 4
       case Delim(_, p) => |p| < U64
  }

  function WireOf(f: Field): nat {
    match f
    case VarintField(_, _) => 0
    case Fixed64(_, _) => 1
    case Fixed32(_, _) => 5
    case Delim(_, _) => 2
  }

  function EncodeBody(f: Field): seq<byte> {
    match f
    case VarintField(_, v) => Encode(v)
    case Fixed64(_, s) => s
    case Fixed32(_, s) => s
    case Delim(_, p) => Encode(|p|) + p
  }

  function EncodeField(f: Field): (s: seq<byte>)
    ensures |s| > 0
  {
    Encode(f.number * 8 + WireOf(f)) + EncodeBody(f)
  }

  function EncodeMessage(m: seq<Field>): seq<byte> {
    if m == [] then [] else EncodeField(m[0]) + EncodeMessage(m[1..])
  }

  /** The length-delimited payloads of a number, in order. */
  function Payloads(m: seq<Field>, want: nat): seq<seq<byte>> {
    if m == [] then []
    else Found(m[0], want) + Payloads(m[1..], want)
  }

  /** Where a field's body ends. */
  lemma BodyBack(buf: seq<byte>, at: nat, f: Field, next: nat)
    requires Fits(f) && StandsAt(buf, at, EncodeBody(f)) && next == at + |EncodeBody(f)|
    ensures StepAt(buf, at, WireOf(f)) == if f.Delim? then Delimited(Span(next - |f.payload|, next)) else Past(next)
    ensures f.Delim? ==> buf[next - |f.payload|..next] == f.payload
  {
    match f {
      case VarintField(_, v) => VarintRoundTrip(buf, at, v);
      case Fixed64(_, _) =>
      case Fixed32(_, _) =>
      case Delim(_, p) =>
        StandsSplit(buf, at, Encode(|p|), p);
        VarintRoundTrip(buf, at, |p|);
    }
  }

  lemma TagBack(buf: seq<byte>, at: nat, tag: u64, front: seq<byte>, body: seq<byte>, whole: seq<byte>)
    requires front == Encode(tag) && whole == front + body && StandsAt(buf, at, whole)
    ensures Number(buf, at, 0) == Some((tag, at + |front|))
    ensures StandsAt(buf, at + |front|, body)
  {
    StandsSplit(buf, at, front, body);
    VarintRoundTrip(buf, at, tag);
  }

  function Found(f: Field, want: nat): seq<seq<byte>> {
    if f.Delim? && f.number == want then [f.payload] else []
  }

  /** One field: what the scan takes of it, and where it goes. */
  lemma FieldBack(buf: seq<byte>, at: nat, f: Field, want: nat, next: nat)
    requires Fits(f) && StandsAt(buf, at, EncodeField(f)) && next == at + |EncodeField(f)|
    ensures FieldsFrom(buf, at, want) == Found(f, want) + FieldsFrom(buf, next, want)
  {
    var tag, body, step := FieldRead(buf, at, f, next);
    var whole, rest := FieldsFrom(buf, at, want), FieldsFrom(buf, next, want);
    TagStep(buf, at, want, tag, WireOf(f), f.number, body, step, whole);
    StepTakes(buf, step, f, want, next, rest);
  }

  /** The tag of a field is read, and then its body. */
  lemma FieldRead(buf: seq<byte>, at: nat, f: Field, next: nat) returns (tag: u64, body: nat, step: Step)
    requires Fits(f) && StandsAt(buf, at, EncodeField(f)) && next == at + |EncodeField(f)|
    ensures Number(buf, at, 0) == Some((tag, body)) && tag % 8 == WireOf(f) && tag / 8 == f.number
    ensures step == StepAt(buf, body, WireOf(f)) && Takes(buf, step, f, next)
  {
    tag, body := TagRead(buf, at, f, next);
    step := BodyRead(buf, body, f, next);
  }

  lemma TagRead(buf: seq<byte>, at: nat, f: Field, next: nat) returns (tag: u64, body: nat)
    requires Fits(f) && StandsAt(buf, at, EncodeField(f)) && next == at + |EncodeField(f)|
    ensures Number(buf, at, 0) == Some((tag, body)) && tag % 8 == WireOf(f) && tag / 8 == f.number
    ensures StandsAt(buf, body, EncodeBody(f)) && next == body + |EncodeBody(f)|
  {
    var front;
    tag, front := TagOf(f);
    body := at + |front|;
    TagBack(buf, at, tag, front, EncodeBody(f), EncodeField(f));
  }

  lemma BodyRead(buf: seq<byte>, body: nat, f: Field, next: nat) returns (step: Step)
    requires Fits(f) && StandsAt(buf, body, EncodeBody(f)) && next == body + |EncodeBody(f)|
    ensures step == StepAt(buf, body, WireOf(f)) && Takes(buf, step, f, next)
  {
    BodyBack(buf, body, f, next);
    step := StepAt(buf, body, WireOf(f));
  }

  /** The step over a field's body that ends at next. */
  predicate Takes(buf: seq<byte>, step: Step, f: Field, next: nat) {
    if f.Delim? then
      && |f.payload| <= next <= |buf|
      && step == Delimited(Span(next - |f.payload|, next))
      && buf[next - |f.payload|..next] == f.payload
    else step == Past(next)
  }

  lemma StepTakes(buf: seq<byte>, step: Step, f: Field, want: nat, next: nat, rest: seq<seq<byte>>)
    requires Takes(buf, step, f, next) && rest == FieldsFrom(buf, next, want)
    ensures Cut(buf, step, f.number == want) + RestOf(buf, step, want) == Found(f, want) + rest
  {
  }

  lemma TagOf(f: Field) returns (tag: u64, front: seq<byte>)
    requires Fits(f)
    ensures tag % 8 == WireOf(f) && tag / 8 == f.number
    ensures front == Encode(tag) && EncodeField(f) == front + EncodeBody(f)
  {
    tag := f.number * 8 + WireOf(f);
    front := Encode(tag);
    TagParts(f.number, WireOf(f));
  }

  lemma {:induction false} MessageBack(buf: seq<byte>, at: nat, m: seq<Field>, want: nat)
    requires forall f <- m :: Fits(f)
    requires at <= |buf| && buf[at..] == EncodeMessage(m)
    ensures FieldsFrom(buf, at, want) == Payloads(m, want)
    decreases |m|
  {
    if m != [] {
      var next := FirstBack(buf, at, m);
      MessageBack(buf, next, m[1..], want);
      FieldBack(buf, at, m[0], want, next);
    }
  }

  lemma FirstBack(buf: seq<byte>, at: nat, m: seq<Field>) returns (next: nat)
    requires m != [] && at <= |buf| && buf[at..] == EncodeMessage(m)
    ensures StandsAt(buf, at, EncodeField(m[0])) && next == at + |EncodeField(m[0])|
    ensures next <= |buf| && buf[next..] == EncodeMessage(m[1..])
  {
    var field, rest := EncodeField(m[0]), EncodeMessage(m[1..]);
    next := at + |field|;
    assert buf[at..at + |field + rest|] == buf[at..];
    StandsSplit(buf, at, field, rest);
    assert buf[next..next + |rest|] == buf[next..];
  }

  /** For every message, the scan of its encoding finds exactly the payloads of the number asked for,
      in order. */
  lemma FieldsRoundTrip(m: seq<Field>, want: nat)
    requires forall f <- m :: Fits(f)
    ensures Fields(EncodeMessage(m), want) == Payloads(m, want)
  {
    MessageBack(EncodeMessage(m), 0, m, want);
  }
}
