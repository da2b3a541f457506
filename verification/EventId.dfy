/**
 The SSE event id: the `id:` text written for a stored message (`sse/encoder.go`) and the
 Last-Event-ID header read back when a client resumes (`sse/sse.go`).
 */
module EventId {
  import opened Basics

  const DELIMITER := '/'
  const MAX_UINT64 := 0xFFFF_FFFF_FFFF_FFFF

  /** The position of a stored message: the fields of a reply that the encoder looks at. */
  datatype Event = Event(offset: nat, epoch: string, stream: string)

  datatype Position = Position(epoch: string, offset: nat)

  /** What the header asks for: no history, the history of some streams, or a malformed request. */
  datatype Request = NoHistory | From(streams: map<string, Position>) | Malformed

  predicate IsDigit(c: char) {
    '0' <= c <= '9'
  }

  /** Decimal text, as `%d` prints it. */
  function Print(n: nat): (s: string)
    ensures |s| > 0 && forall i :: 0 <= i < |s| ==> IsDigit(s[i])
  {
    if n < 10 then ['0' + n as char] else Print(n / 10) + ['0' + (n % 10) as char]
  }

  function Value(s: string): nat
    requires forall i :: 0 <= i < |s| ==> IsDigit(s[i])
  {
    if s == [] then 0 else assert IsDigit(s[|s| - 1]); 10 * Value(s[..|s| - 1]) + (s[|s| - 1] as int - '0' as int)
  }

  /** Base-10, 64-bit `strconv.ParseUint`. */
  function ParseUint(s: string): Option<nat> {
    if s == [] || exists i :: 0 <= i < |s| && !IsDigit(s[i]) then None
    else if Value(s) > MAX_UINT64 then None
    else Some(Value(s))
  }

  /** `strings.SplitN` with a one-character separator and at least one part. */
  function SplitN(s: string, n: nat): (parts: seq<string>)
    requires n >= 1
    ensures 1 <= |parts| <= n
    decreases n
  {
    if n == 1 || DELIMITER !in s then [s]
    else
      var i := IndexOf(s);
      [s[..i]] + SplitN(s[i + 1..], n - 1)
  }

  function IndexOf(s: string): (i: nat)
    requires DELIMITER in s
    ensures i < |s| && s[i] == DELIMITER && DELIMITER !in s[..i]
  {
    if s[0] == DELIMITER then 0 else 1 + IndexOf(s[1..])
  }

  /** The text after `id: `, when the encoder writes one: only for a message with an offset, an epoch and a stream. */
  function Encode(e: Event): Option<string> {
    if e.offset > 0 && e.epoch != "" && e.stream != ""
    then Some(Print(e.offset) + [DELIMITER] + e.epoch + [DELIMITER] + e.stream)
    else None
  }

  function Decode(lastId: string): Request {
    if lastId == "" then NoHistory
    else
      var parts := SplitN(lastId, 3);
      if |parts| != 3 then NoHistory
      else match ParseUint(parts[0])
        case None => Malformed
        case Some(offset) => From(map[parts[2] := Position(parts[1], offset)])
  }

  lemma {:induction false} PrintValue(n: nat)
    ensures Value(Print(n)) == n
  {
    if n >= 10 {
      PrintValue(n / 10);
      assert Print(n)[..|Print(n)| - 1] == Print(n / 10);
    } else {
      assert Print(n)[..0] == [];
    }
  }

  /** Printing then parsing is the identity exactly up to the 64-bit limit. */
  lemma {:induction false} PrintParse(n: nat)
    ensures ParseUint(Print(n)) == (if n <= MAX_UINT64 then Some(n) else None)
  {
    PrintValue(n);
  }

  /** Splitting cuts at the first delimiter. */
  lemma {:induction false} SplitFirst(a: string, rest: string, n: nat)
    requires n >= 2 && DELIMITER !in a
    ensures SplitN(a + [DELIMITER] + rest, n) == [a] + SplitN(rest, n - 1)
  {
    var s := a + [DELIMITER] + rest;
    assert s[|a|] == DELIMITER;
    var i := IndexOf(s);
    assert s[..i] == a && s[i + 1..] == rest;
  }

  lemma {:induction false} SplitOne(s: string, n: nat)
    requires n >= 1 && DELIMITER !in s
    ensures SplitN(s, n) == [s]
  {
  }

  /** What any header asks for (`HeaderForms` says that these are all). One without two slashes asks for nothing;
      otherwise what comes before the first is the offset, what comes between the two is the epoch, and the rest,
      slashes included, is the stream. A header whose first part is not a number of 64 bits is malformed. */
  lemma {:induction false} DecodeExactly(a: string, b: string, rest: string)
    requires DELIMITER !in a && DELIMITER !in b
    ensures Decode(a) == NoHistory && Decode(a + [DELIMITER] + b) == NoHistory
    ensures Decode(a + [DELIMITER] + b + [DELIMITER] + rest) ==
      match ParseUint(a) case None => Malformed case Some(o) => From(map[rest := Position(b, o)])
  {
    SplitOne(a, 3);
    SplitFirst(a, b, 3);
    SplitOne(b, 2);
    var tail := b + [DELIMITER] + rest;
    assert a + [DELIMITER] + b + [DELIMITER] + rest == a + [DELIMITER] + tail;
    SplitFirst(a, tail, 3);
    SplitFirst(b, rest, 2);
  }

  lemma {:induction false} CutAtFirst(s: string) returns (head: string, tail: string)
    requires DELIMITER in s
    ensures DELIMITER !in head && s == head + [DELIMITER] + tail
  {
    var i := IndexOf(s);
    head, tail := s[..i], s[i + 1..];
  }

  /** Every header is of one of these forms. */
  lemma {:induction false} HeaderForms(s: string) returns (a: string, b: string, rest: string)
    ensures DELIMITER !in a && DELIMITER !in b
    ensures s == a || s == a + [DELIMITER] + b || s == a + [DELIMITER] + (b + [DELIMITER] + rest)
  {
    a, b, rest := s, "", "";
    if DELIMITER in s {
      a, b := CutAtFirst(s);
      if DELIMITER in b {
        b, rest := CutAtFirst(b);
      }
    }
  }

  lemma {:induction false} DecodeParts(offset: nat, epoch: string, stream: string)
    requires offset <= MAX_UINT64 && DELIMITER !in epoch
    ensures Decode(Print(offset) + [DELIMITER] + epoch + [DELIMITER] + stream) ==
            From(map[stream := Position(epoch, offset)])
  {
    DecodeExactly(Print(offset), epoch, stream);
    PrintParse(offset);
  }

  /** An id is written for exactly the events with an offset, an epoch and a stream. For all of these, the header
      read back asks for the history after exactly that event of exactly that stream, if and only if the epoch has no
      slash in it. The stream name may hold any number of slashes. */
  lemma {:induction false} RoundTrip(e: Event)
    requires e.offset <= MAX_UINT64
    ensures Encode(e).Some? <==> e.offset > 0 && e.epoch != "" && e.stream != ""
    ensures Encode(e).Some? ==>
      (Decode(Encode(e).value) == From(map[e.stream := Position(e.epoch, e.offset)]) <==> DELIMITER !in e.epoch)
  {
    if Encode(e).Some? {
      if DELIMITER !in e.epoch {
        DecodeParts(e.offset, e.epoch, e.stream);
      } else {
        var i := IndexOf(e.epoch);
        var head, tail := e.epoch[..i], e.epoch[i + 1..] + [DELIMITER] + e.stream;
        assert Encode(e).value == Print(e.offset) + [DELIMITER] + head + [DELIMITER] + tail;
        DecodeParts(e.offset, head, tail);
        assert |tail| > |e.stream|;
        assert e.stream in map[e.stream := Position(e.epoch, e.offset)];
      }
    }
  }

  /** Two events never share an id. */
  lemma IdsDistinct(d: Event, e: Event)
    requires d.offset <= MAX_UINT64 && e.offset <= MAX_UINT64 && Encode(d).Some? && Encode(e).Some?
    requires DELIMITER !in d.epoch && DELIMITER !in e.epoch
    ensures Encode(d) == Encode(e) ==> d == e
  {
    RoundTrip(d);
    RoundTrip(e);
    var md, me := map[d.stream := Position(d.epoch, d.offset)], map[e.stream := Position(e.epoch, e.offset)];
    assert d.stream in md && e.stream in me;
    if md == me {
      assert d.stream in me;
      assert md[d.stream] == me[d.stream];
    }
  }
}
