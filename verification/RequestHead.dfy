/** Reading the head of a request off a stream that arrives in pieces. */
module RequestHead {
  import opened Wrappers
  import opened Bytes

  const LIMIT := 0x1_0000
  const CHUNK := 1024

  const BLANK: seq<byte> := [13, 10, 13, 10]

  /** A blank line ends at a place. */
  predicate BlankEndsAt(buf: seq<byte>, end: nat) {
    4 <= end <= |buf| && buf[end - 4..end] == BLANK
  }

  /** The first place from a window on where a blank line ends. */
  function EndFrom(buf: seq<byte>, p: nat): Option<nat>
    decreases |buf| - p
  {
    if p + 4 > |buf| then None
    else if buf[p..p + 4] == BLANK then Some(p + 4)
    else EndFrom(buf, p + 1)
  }

  /** Where the head ends. */
  function HeadEnd(buf: seq<byte>): Option<nat> {
    EndFrom(buf, 0)
  }

  method FindHeadersEnd(buf: seq<byte>) returns (end: Option<nat>)
    ensures end == HeadEnd(buf)
  {
    var p := 0;
    while p + 4 <= |buf|
      invariant HeadEnd(buf) == EndFrom(buf, p)
    {
      if buf[p..p + 4] == BLANK {
        return Some(p + 4);
      }
      p := p + 1;
    }
    return None;
  }

  /** It is the least place where a blank line ends, and there is none exactly when none is found. */
  lemma {:induction false} EndMeans(buf: seq<byte>, p: nat)
    ensures var e := EndFrom(buf, p);
            && (e.Some? ==> p + 4 <= e.value && BlankEndsAt(buf, e.value))
            && forall q: nat | p + 4 <= q && (e.Some? ==> q < e.value) :: !BlankEndsAt(buf, q)
    decreases |buf| - p
  {
    if p + 4 <= |buf| && buf[p..p + 4] != BLANK {
      EndMeans(buf, p + 1);
    }
  }

  /** What has arrived so far. */
  function Joined(chunks: seq<seq<byte>>): seq<byte> {
    if chunks == [] then [] else Joined(chunks[..|chunks| - 1]) + chunks[|chunks| - 1]
  }

  /** Reads of a stream: each brings at least one octet and at most a chunk. */
  predicate Reads(chunks: seq<seq<byte>>) {
    forall c <- chunks :: 1 <= |c| <= CHUNK
  }

  /** The octets begin with a whole head of this length, and with no shorter one. */
  ghost predicate HeadIs(buf: seq<byte>, end: nat) {
    BlankEndsAt(buf, end) && forall q: nat | q < end :: !BlankEndsAt(buf, q)
  }

  ghost predicate NoBlank(buf: seq<byte>) {
    forall q: nat :: !BlankEndsAt(buf, q)
  }

  /** Reading gives up after so many reads: the head has not ended, and the stream has, or too much
      has come. */
  ghost predicate GivesUp(chunks: seq<seq<byte>>, used: nat)
    requires used <= |chunks|
  {
    NoBlank(Joined(chunks[..used])) && (used == |chunks| || |Joined(chunks[..used])| > LIMIT)
  }

  lemma HeadEndIs(buf: seq<byte>)
    ensures HeadEnd(buf).Some? ==> HeadIs(buf, HeadEnd(buf).value)
    ensures HeadEnd(buf).None? ==> NoBlank(buf)
  {
    EndMeans(buf, 0);
  }

  /** Reads until the head is whole. `used` reads were made; the stream then ends, or fails, where the
      chunks do. */
  method ReadHead(chunks: seq<seq<byte>>) returns (r: Option<(seq<byte>, seq<byte>)>, used: nat)
    requires Reads(chunks)
    ensures used <= |chunks| && used <= LIMIT + 1
    ensures r.Some? ==>
              && r.value.0 + r.value.1 == Joined(chunks[..used]) && |r.value.0 + r.value.1| <= LIMIT + CHUNK
              && HeadIs(r.value.0 + r.value.1, |r.value.0|)
    ensures r.None? ==> GivesUp(chunks, used)
  {
    var buf: seq<byte> := [];
    used := 0;
    assert chunks[..0] == [];
    while used < |chunks|
      invariant used <= |chunks| && used <= |buf| <= LIMIT
      invariant buf == Joined(chunks[..used])
      invariant NoBlank(buf)
      decreases |chunks| - used
    {
      assert chunks[used] in chunks;
      assert chunks[..used + 1][..used] == chunks[..used];
      buf := buf + chunks[used];
      used := used + 1;
      r := Divide(buf);
      if r.Some? || |buf| > LIMIT {
        return r, used;
      }
    }
    assert chunks[..used] == chunks;
    return None, used;
  }

  /** The head, if it is whole, and what came with it. */
  method Divide(buf: seq<byte>) returns (r: Option<(seq<byte>, seq<byte>)>)
    ensures r.Some? ==> r.value.0 + r.value.1 == buf && HeadIs(buf, |r.value.0|)
    ensures r.None? ==> NoBlank(buf)
  {
    var end := FindHeadersEnd(buf);
    HeadEndIs(buf);
    match end {
      case None =>
        r := None;
      case Some(pos) =>
        r := Some((buf[..pos], buf[pos..]));
    }
  }

  // ----- how it was cut does not matter -----

  /** What may come of reading a stream cut this way. */
  ghost predicate Yields(chunks: seq<seq<byte>>, head: seq<byte>, leftover: seq<byte>, used: nat) {
    used <= |chunks| && head + leftover == Joined(chunks[..used]) && HeadIs(head + leftover, |head|)
  }

  lemma {:induction false} JoinedPrefix(chunks: seq<seq<byte>>, n: nat)
    requires n <= |chunks|
    ensures Joined(chunks[..n]) <= Joined(chunks)
    decreases |chunks|
  {
    if n == |chunks| {
      assert chunks[..n] == chunks;
    } else {
      var shorter := chunks[..|chunks| - 1];
      assert shorter[..n] == chunks[..n];
      JoinedPrefix(shorter, n);
    }
  }

  lemma PrefixKeepsBlank(a: seq<byte>, b: seq<byte>, end: nat)
    requires a <= b && end <= |a|
    ensures BlankEndsAt(a, end) <==> BlankEndsAt(b, end)
  {
    if 4 <= end {
      assert a[end - 4..end] == b[end - 4..end];
    }
  }

  /** However one stream of octets is cut into reads, every reading that succeeds returns the same
      head: the shortest prefix of the stream that ends in a blank line. */
  lemma ChunkIndependence(a: seq<seq<byte>>, b: seq<seq<byte>>, head: seq<byte>, rest: seq<byte>, used: nat,
                          head': seq<byte>, rest': seq<byte>, used': nat)
    requires Joined(a) == Joined(b)
    requires Yields(a, head, rest, used) && Yields(b, head', rest', used')
    ensures head == head' && head <= Joined(a) && HeadIs(Joined(a), |head|)
  {
    HeadOfStream(a, head, rest, used);
    HeadOfStream(b, head', rest', used');
    OneHead(Joined(a), |head|, |head'|);
  }

  lemma OneHead(stream: seq<byte>, a: nat, b: nat)
    requires HeadIs(stream, a) && HeadIs(stream, b)
    ensures a == b
  {
  }

  lemma HeadOfStream(chunks: seq<seq<byte>>, head: seq<byte>, rest: seq<byte>, used: nat)
    requires Yields(chunks, head, rest, used)
    ensures head <= Joined(chunks) && HeadIs(Joined(chunks), |head|)
  {
    JoinedPrefix(chunks, used);
    var buf, stream := head + rest, Joined(chunks);
    assert head == buf[..|head|] == stream[..|head|];
    PrefixKeepsBlank(buf, stream, |head|);
    forall q: nat | q < |head| ensures !BlankEndsAt(stream, q) {
      PrefixKeepsBlank(buf, stream, q);
    }
  }

  /** A stream whose head is at most one octet over 64 KiB is never refused: however it is cut, a
      reading that gives up has not seen the head end. So the limit refuses only longer heads. */
  lemma ShortHeadsAreRead(chunks: seq<seq<byte>>, used: nat, end: nat)
    requires HeadIs(Joined(chunks), end) && end <= LIMIT + 1 && used <= |chunks|
    ensures !GivesUp(chunks, used)
  {
    JoinedPrefix(chunks, used);
    assert used == |chunks| ==> chunks[..used] == chunks;
    if |Joined(chunks[..used])| >= end {
      PrefixKeepsBlank(Joined(chunks[..used]), Joined(chunks), end);
    }
  }

  /** One octet more, and how the stream is cut decides: a read that brings all but that octet refuses. */
  lemma LongHeadsMayBeRefused(chunks: seq<seq<byte>>, used: nat, end: nat)
    requires HeadIs(Joined(chunks), end) && end > LIMIT + 1 && used <= |chunks|
    requires |Joined(chunks[..used])| == LIMIT + 1
    ensures GivesUp(chunks, used)
  {
    JoinedPrefix(chunks, used);
    forall q: nat ensures !BlankEndsAt(Joined(chunks[..used]), q) {
      if q <= LIMIT + 1 {
        PrefixKeepsBlank(Joined(chunks[..used]), Joined(chunks), q);
      }
    }
  }
}
