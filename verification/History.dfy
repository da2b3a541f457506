/**
 The log of one stream kept by the in-memory broker (`broker/memory.go`, `memstream`): bounded,
 expiring, numbered by 64-bit offsets, and read back by index arithmetic instead of search.
 */
module History {
  import opened Basics

  type uint64 = x: int | 0 <= x < 0x1_0000_0000_0000_0000

  const MAX_UINT64: uint64 := 0xFFFF_FFFF_FFFF_FFFF

  datatype Result<+T> = Ok(value: T) | Err

  datatype Entry = Entry(timestamp: int, offset: uint64, data: string)

  datatype Config = Config(limit: int, ttl: int)

  /** What a stream holds. The lowest offset, which the code keeps in a field, is derived here. */
  datatype Stream = Stream(offset: uint64, data: seq<Entry>, deadline: int)

  const EMPTY := Stream(0, [], 0)

  function Low(data: seq<Entry>): uint64 {
    if data == [] then 0 else data[0].offset
  }

  /** One critical section of the stream; `now` is the clock reading taken inside it. */
  datatype Op =
    | Add(data: string, now: int)
    | Insert(data: string, offset: uint64, time: Option<int>, now: int)
    | Expire(now: int)

  function LastN(s: seq<Entry>, n: nat): seq<Entry> {
    if |s| <= n then s else s[|s| - n..]
  }

  function DropStale(data: seq<Entry>, bound: int): seq<Entry> {
    if data != [] && data[0].timestamp < bound then DropStale(data[1..], bound) else data
  }

  function Filter(p: Entry -> bool, s: seq<Entry>): seq<Entry> {
    if s == [] then [] else (if p(s[0]) then [s[0]] else []) + Filter(p, s[1..])
  }

  function After(s: seq<Entry>, o: uint64): seq<Entry> {
    Filter((e: Entry) => e.offset > o, s)
  }

  function Since(s: seq<Entry>, bound: int): seq<Entry> {
    Filter((e: Entry) => e.timestamp >= bound, s)
  }

  /** The entry an operation appends, if it appends one. */
  function Appended(st: Stream, op: Op): seq<Entry> {
    match op
    case Add(d, now) => [Entry(now, if st.offset == MAX_UINT64 then 0 else st.offset + 1, d)]
    case Insert(d, o, t, now) =>
      if st.offset >= o then [] else [Entry(if t.None? then now else t.value, o, d)]
    case Expire(_) => []
  }

  function Apply(c: Config, st: Stream, op: Op): Stream
    requires c.limit >= 1
  {
    if op.Expire? then st.(data := DropStale(st.data, op.now - c.ttl))
    else
      var es := Appended(st, op);
      if es == [] then st else Stream(es[0].offset, LastN(st.data + es, c.limit), op.now + 10 * c.ttl)
  }

  /** The answer to a request for everything after offset `o`. */
  function From(data: seq<Entry>, o: uint64): Result<seq<Entry>> {
    if Low(data) == 0 || o < Low(data) || o - Low(data) >= |data| then Err
    else Ok(data[o - Low(data) + 1..])
  }

  class MemStream {
    var offset: uint64
    var deadline: int
    var low: uint64
    var data: seq<Entry>
    const config: Config

    ghost predicate Valid()
      reads this
    {
      config.limit >= 1 && |data| <= config.limit && low == Low(data)
    }

    ghost function View(): Stream
      reads this
    {
      Stream(offset, data, deadline)
    }

    constructor (config: Config)
      requires config.limit >= 1
      ensures Valid() && View() == EMPTY && this.config == config
    {
      this.config := config;
      offset, deadline, low, data := 0, 0, 0, [];
    }

    method AppendEntry(entry: Entry, now: int)
      requires Valid()
      modifies this`data, this`low, this`deadline
      ensures Valid()
      ensures data == LastN(old(data) + [entry], config.limit) && deadline == now + 10 * config.ttl
    {
      data := data + [entry];
      if |data| > config.limit {
        data := data[1..];
        low := data[0].offset;
      }
      if low == 0 {
        low := data[0].offset;
      }
      deadline := now + config.ttl * 10;
    }

    method Add(text: string, now: int) returns (given: uint64)
      requires Valid()
      modifies this
      ensures Valid() && View() == Apply(config, old(View()), Op.Add(text, now))
      ensures given == offset
    {
      offset := if offset == MAX_UINT64 then 0 else offset + 1;
      AppendEntry(Entry(now, offset, text), now);
      return offset;
    }

    method Insert(text: string, at: uint64, time: Option<int>, now: int) returns (r: Result<uint64>)
      requires Valid()
      modifies this
      ensures Valid() && View() == Apply(config, old(View()), Op.Insert(text, at, time, now))
      ensures r == if old(offset) < at then Ok(at) else Err
    {
      var ts := if time.None? then now else time.value;
      if offset >= at {
        return Err;
      }
      offset := at;
      AppendEntry(Entry(ts, at, text), now);
      return Ok(offset);
    }

    method Expire(now: int)
      requires Valid()
      modifies this`data, this`low
      ensures Valid() && View() == Apply(config, old(View()), Op.Expire(now))
    {
      var cutIndex := 0;
      var bound := now - config.ttl;
      while cutIndex < |data| && data[cutIndex].timestamp < bound
        invariant cutIndex <= |data| && data == old(data)
        invariant DropStale(data[cutIndex..], bound) == DropStale(data, bound)
      {
        assert data[cutIndex..][1..] == data[cutIndex + 1..];
        cutIndex := cutIndex + 1;
      }
      data := data[cutIndex..];
      if |data| > 0 {
        low := data[0].offset;
      } else {
        low := 0;
      }
    }

    /** The 64-bit subtraction and addition below cannot wrap: `start` is a `uint64`. */
    method FilterByOffset(o: uint64) returns (r: Result<seq<Entry>>)
      requires Valid()
      ensures r == From(data, o)
    {
      if low > o {
        return Err;
      }
      if low == 0 {
        return Err;
      }
      var start: uint64 := (o - low) + 1;
      if start > |data| {
        var latest := data[|data| - 1].offset;
        return Err;
      }
      var history := [];
      for i := start to |data|
        invariant history == data[start..i]
      {
        history := history + [data[i]];
      }
      assert history == data[start..];
      return Ok(history);
    }

    method FilterByTime(since: int) returns (history: seq<Entry>)
      ensures history == Since(data, since)
    {
      history := [];
      for i := 0 to |data|
        invariant history + Since(data[i..], since) == Since(data, since)
      {
        assert data[i..][0] == data[i] && data[i..][1..] == data[i + 1..];
        if data[i].timestamp >= since {
          history := history + [data[i]];
        }
      }
    }
  }

  // Every run of a stream.

  function Run(c: Config, ops: seq<Op>): Stream
    requires c.limit >= 1
  {
    if ops == [] then EMPTY else Apply(c, Run(c, ops[..|ops| - 1]), ops[|ops| - 1])
  }

  /** Everything ever appended, in order. */
  function Log(c: Config, ops: seq<Op>): seq<Entry>
    requires c.limit >= 1
  {
    if ops == [] then []
    else
      var init := ops[..|ops| - 1];
      Log(c, init) + Appended(Run(c, init), ops[|ops| - 1])
  }

  /** No `Add` is made at the largest offset. */
  predicate NoWrap(c: Config, ops: seq<Op>)
    requires c.limit >= 1
  {
    ops != [] ==>
      var init, op := ops[..|ops| - 1], ops[|ops| - 1];
      NoWrap(c, init) && (op.Add? ==> Run(c, init).offset < MAX_UINT64)
  }

  /** No accepted `Insert` leaves a gap after an entry that is still held. */
  predicate NoGap(c: Config, ops: seq<Op>)
    requires c.limit >= 1
  {
    ops != [] ==>
      var init, op := ops[..|ops| - 1], ops[|ops| - 1];
      var st := Run(c, init);
      NoGap(c, init) && (op.Insert? ==> op.offset <= st.offset + 1 || st.data == [])
  }

  predicate Increasing(s: seq<Entry>) {
    forall i, j :: 0 <= i < j < |s| ==> s[i].offset < s[j].offset
  }

  predicate Consecutive(s: seq<Entry>) {
    forall i :: 0 <= i < |s| ==> s[i].offset == s[0].offset + i
  }

  predicate IsSuffix(s: seq<Entry>, t: seq<Entry>) {
    |s| <= |t| && s == t[|t| - |s|..]
  }

  lemma {:induction false} DropStaleSuffix(data: seq<Entry>, bound: int)
    ensures IsSuffix(DropStale(data, bound), data)
  {
    if data != [] && data[0].timestamp < bound {
      DropStaleSuffix(data[1..], bound);
    }
  }

  function LastOffset(s: seq<Entry>): uint64 {
    if s == [] then 0 else s[|s| - 1].offset
  }

  /** The data held is the end of the log, never longer than the limit. */
  predicate EndsLog(c: Config, st: Stream, log: seq<Entry>) {
    |st.data| <= c.limit && IsSuffix(st.data, log) && st.offset == LastOffset(log)
  }

  lemma AppendEndsLog(data: seq<Entry>, log: seq<Entry>, e: Entry, limit: nat)
    requires IsSuffix(data, log) && limit >= 1
    ensures var longer := LastN(data + [e], limit);
      |longer| <= limit && IsSuffix(longer, log + [e]) && longer[|longer| - 1] == e
  {
    assert IsSuffix(data + [e], log + [e]);
  }

  lemma StepEndsLog(c: Config, st: Stream, log: seq<Entry>, op: Op)
    requires c.limit >= 1 && EndsLog(c, st, log)
    ensures EndsLog(c, Apply(c, st, op), log + Appended(st, op))
  {
    var es := Appended(st, op);
    if es == [] {
      assert log + es == log;
      if op.Expire? {
        DropStaleSuffix(st.data, op.now - c.ttl);
      }
    } else {
      AppendEndsLog(st.data, log, es[0], c.limit);
    }
  }

  lemma {:induction false} RunEndsLog(c: Config, ops: seq<Op>)
    requires c.limit >= 1
    ensures EndsLog(c, Run(c, ops), Log(c, ops))
  {
    if ops != [] {
      var init := ops[..|ops| - 1];
      RunEndsLog(c, init);
      StepEndsLog(c, Run(c, init), Log(c, init), ops[|ops| - 1]);
    }
  }

  predicate Numbered(log: seq<Entry>) {
    Increasing(log) && forall i :: 0 <= i < |log| ==> log[i].offset > 0
  }

  lemma StepNumbered(log: seq<Entry>, e: Entry)
    ensures Numbered(log + [e]) <==> Numbered(log) && e.offset > LastOffset(log)
  {
    var longer := log + [e];
    assert longer[|log|] == e;
    assert forall i :: 0 <= i < |log| ==> longer[i] == log[i];
    assert Numbered(log) && e.offset > LastOffset(log) ==> Numbered(longer);
    assert Numbered(longer) ==> Numbered(log);
  }

  /** The log's offsets increase, from one up, exactly when no `Add` wraps. */
  lemma {:induction false} NumberedIffNoWrap(c: Config, ops: seq<Op>)
    requires c.limit >= 1
    ensures NoWrap(c, ops) <==> Numbered(Log(c, ops))
  {
    if ops != [] {
      var init, op := ops[..|ops| - 1], ops[|ops| - 1];
      NumberedIffNoWrap(c, init);
      RunEndsLog(c, init);
      var es := Appended(Run(c, init), op);
      if es != [] {
        StepNumbered(Log(c, init), es[0]);
      } else {
        assert Log(c, ops) == Log(c, init);
      }
    }
  }

  lemma StepConsecutive(c: Config, st: Stream, op: Op)
    requires c.limit >= 1 && Consecutive(st.data) && (st.data == [] || st.offset == LastOffset(st.data))
    requires op.Add? ==> st.offset < MAX_UINT64
    requires op.Insert? ==> op.offset <= st.offset + 1 || st.data == []
    ensures Consecutive(Apply(c, st, op).data)
  {
    if op.Expire? {
      DropStaleSuffix(st.data, op.now - c.ttl);
    } else if Appended(st, op) != [] {
      assert Consecutive(st.data + Appended(st, op));
    }
  }

  lemma {:induction false} RunConsecutive(c: Config, ops: seq<Op>)
    requires c.limit >= 1 && NoWrap(c, ops) && NoGap(c, ops)
    ensures Consecutive(Run(c, ops).data)
  {
    if ops != [] {
      var init := ops[..|ops| - 1];
      RunConsecutive(c, init);
      RunEndsLog(c, init);
      StepConsecutive(c, Run(c, init), ops[|ops| - 1]);
    }
  }

  // Reading back.

  lemma {:induction false} FilterSplit(p: Entry -> bool, s: seq<Entry>, k: nat)
    requires k <= |s|
    ensures Filter(p, s) == Filter(p, s[..k]) + Filter(p, s[k..])
  {
    if k == 0 {
      assert s[k..] == s;
    } else {
      FilterSplit(p, s[1..], k - 1);
      assert s[..k][0] == s[0] && s[..k][1..] == s[1..][..k - 1] && s[1..][k - 1..] == s[k..];
    }
  }

  lemma {:induction false} FilterAll(p: Entry -> bool, s: seq<Entry>)
    ensures (forall i :: 0 <= i < |s| ==> p(s[i])) ==> Filter(p, s) == s
    ensures (forall i :: 0 <= i < |s| ==> !p(s[i])) ==> Filter(p, s) == []
    ensures |Filter(p, s)| == |s| ==> forall i :: 0 <= i < |s| ==> p(s[i])
    ensures |Filter(p, s)| <= |s|
  {
    if s != [] {
      FilterAll(p, s[1..]);
      assert forall i :: 0 < i < |s| ==> s[i] == s[1..][i - 1];
    }
  }

  /** In an increasing sequence the entries after `o` are the ones behind any cut that `o` falls into. */
  lemma AfterIsSuffix(s: seq<Entry>, k: nat, o: uint64)
    requires Increasing(s) && k <= |s|
    requires forall i :: 0 <= i < k ==> s[i].offset <= o
    requires forall i :: k <= i < |s| ==> s[i].offset > o
    ensures After(s, o) == s[k..]
  {
    FilterSplit((e: Entry) => e.offset > o, s, k);
    NoneAfter(s[..k], o);
    AllAfter(s[k..], o);
    assert [] + s[k..] == s[k..];
  }

  lemma {:induction false} NoneAfter(s: seq<Entry>, o: uint64)
    requires forall i :: 0 <= i < |s| ==> s[i].offset <= o
    ensures After(s, o) == []
  {
    FilterAll((e: Entry) => e.offset > o, s);
  }

  lemma {:induction false} AllAfter(s: seq<Entry>, o: uint64)
    requires forall i :: 0 <= i < |s| ==> s[i].offset > o
    ensures After(s, o) == s
  {
    FilterAll((e: Entry) => e.offset > o, s);
  }

  lemma {:induction false} AfterFound(log: seq<Entry>, k: nat, o: uint64)
    requires Increasing(log) && k < |log| && log[k].offset == o
    ensures After(log, o) == log[k + 1..]
  {
    AfterIsSuffix(log, k + 1, o);
  }

  lemma {:induction false} ResumeFromSuffix(data: seq<Entry>, log: seq<Entry>, o: uint64)
    requires IsSuffix(data, log) && Numbered(log) && Consecutive(data)
    ensures From(data, o) ==
            if data != [] && Low(data) <= o <= LastOffset(log) then Ok(After(log, o)) else Err
  {
    var skip := |log| - |data|;
    if data != [] {
      assert data[0] == log[skip] && data[|data| - 1] == log[|log| - 1];
      if Low(data) <= o <= LastOffset(log) {
        var k := o - Low(data);
        assert data[k] == log[skip + k] && data[k].offset == o;
        AfterFound(log, skip + k, o);
        assert log[skip + k + 1..] == data[k + 1..];
      }
    }
  }

  /** Resume is exact over every run without wraps and gaps: a request for offset `o` is answered
      if and only if `o` is between the lowest and the last offset held, and the answer is all of the
      stream's log after `o`, in order. */
  lemma {:induction false} ResumeExact(c: Config, ops: seq<Op>, o: uint64)
    requires c.limit >= 1 && NoWrap(c, ops) && NoGap(c, ops)
    ensures var st := Run(c, ops);
      From(st.data, o) == if st.data != [] && Low(st.data) <= o <= st.offset then Ok(After(Log(c, ops), o)) else Err
  {
    RunEndsLog(c, ops);
    NumberedIffNoWrap(c, ops);
    RunConsecutive(c, ops);
    ResumeFromSuffix(Run(c, ops).data, Log(c, ops), o);
  }

  /** The entries are the end of the log, numbered on from `o`. */
  predicate NumberedEnd(es: seq<Entry>, log: seq<Entry>, o: int) {
    && |es| <= |log|
    && forall k :: 0 <= k < |es| ==> es[k] == log[|log| - |es| + k] && es[k].offset == o + 1 + k
  }

  lemma {:induction false} SuffixNumbered(data: seq<Entry>, log: seq<Entry>, o: uint64)
    requires IsSuffix(data, log) && Consecutive(data) && From(data, o).Ok?
    ensures var es := From(data, o).value; |es| == LastOffset(log) - o && NumberedEnd(es, log, o)
  {
    var es, skip := From(data, o).value, o - Low(data) + 1;
    assert data[|data| - 1] == log[|log| - 1] && data[|data| - 1].offset == data[0].offset + (|data| - 1);
    forall k | 0 <= k < |es|
      ensures es[k] == log[|log| - |es| + k] && es[k].offset == o + 1 + k
    {
      assert es[k] == data[skip + k] && data[skip + k].offset == data[0].offset + (skip + k);
    }
  }

  function Min(a: int, b: int): int {
    if a < b then a else b
  }

  /** The last entries, as many as the limit allows. */
  predicate IsNewest(data: seq<Entry>, log: seq<Entry>, limit: int) {
    |data| == Min(limit, |log|) && IsSuffix(data, log)
  }

  /** An accepted entry is the last one held, and pushes nothing out but what is over the limit. */
  lemma {:induction false} AppendHolds(data: seq<Entry>, log: seq<Entry>, e: Entry, limit: int)
    requires limit >= 1 && IsNewest(data, log, limit)
    ensures IsNewest(LastN(data + [e], limit), log + [e], limit)
  {
    AppendEndsLog(data, log, e, limit);
  }

  lemma {:induction false} StepHolds(c: Config, st: Stream, log: seq<Entry>, op: Op)
    requires c.limit >= 1 && !op.Expire? && IsNewest(st.data, log, c.limit)
    ensures IsNewest(Apply(c, st, op).data, log + Appended(st, op), c.limit)
  {
    if Appended(st, op) == [] {
      assert log + [] == log;
    } else {
      AppendHolds(st.data, log, Appended(st, op)[0], c.limit);
    }
  }

  /** Until something expires, a stream holds the newest entries of its log, as many as the limit allows. */
  lemma {:induction false} HoldsNewest(c: Config, ops: seq<Op>)
    requires c.limit >= 1 && forall i :: 0 <= i < |ops| ==> !ops[i].Expire?
    ensures IsNewest(Run(c, ops).data, Log(c, ops), c.limit)
  {
    if ops != [] {
      var init := ops[..|ops| - 1];
      HoldsNewest(c, init);
      StepHolds(c, Run(c, init), Log(c, init), ops[|ops| - 1]);
    }
  }

  /** The same entry by entry, without a filter: the answer is the end of the log, numbered on from `o`. */
  lemma {:induction false} ResumeNumbered(c: Config, ops: seq<Op>, o: uint64)
    requires c.limit >= 1 && NoWrap(c, ops) && NoGap(c, ops) && From(Run(c, ops).data, o).Ok?
    ensures var es := From(Run(c, ops).data, o).value;
      |es| == Run(c, ops).offset - o && NumberedEnd(es, Log(c, ops), o)
  {
    RunEndsLog(c, ops);
    RunConsecutive(c, ops);
    SuffixNumbered(Run(c, ops).data, Log(c, ops), o);
  }

  /** The indexes, from `base` on and in order, of all the entries that pass. */
  ghost predicate Picks(p: Entry -> bool, s: seq<Entry>, base: nat, at: seq<nat>) {
    && (forall k :: 0 <= k < |at| ==> base <= at[k] < |s| && p(s[at[k]]))
    && (forall j, k :: 0 <= j < k < |at| ==> at[j] < at[k])
    && (forall i :: base <= i < |s| && p(s[i]) ==> i in at)
  }

  lemma {:induction false} PicksOneMore(p: Entry -> bool, s: seq<Entry>, base: nat, at: seq<nat>)
    requires base < |s| && Picks(p, s, base + 1, at)
    ensures Picks(p, s, base, if p(s[base]) then [base] + at else at)
  {
    var more := if p(s[base]) then [base] + at else at;
    forall i | base <= i < |s| && p(s[i])
      ensures i in more
    {
      if i > base {
        assert i in at;
      }
    }
  }

  ghost predicate Selects(kept: seq<Entry>, s: seq<Entry>, at: seq<nat>) {
    |kept| == |at| && forall k :: 0 <= k < |at| ==> at[k] < |s| && kept[k] == s[at[k]]
  }

  lemma {:induction false} SelectsOneMore(kept: seq<Entry>, s: seq<Entry>, i: nat, at: seq<nat>)
    requires Selects(kept, s, at) && i < |s|
    ensures Selects([s[i]] + kept, s, [i] + at)
  {
  }

  lemma {:induction false} FilterFrom(p: Entry -> bool, s: seq<Entry>, base: nat)
    requires base < |s|
    ensures var rest := Filter(p, s[base + 1..]);
      Filter(p, s[base..]) == if p(s[base]) then [s[base]] + rest else rest
  {
    assert s[base..][0] == s[base] && s[base..][1..] == s[base + 1..];
  }

  lemma {:induction false} OneMoreKept(p: Entry -> bool, s: seq<Entry>, base: nat, rest: seq<nat>)
      returns (at: seq<nat>)
    requires base < |s| && Picks(p, s, base + 1, rest) && Selects(Filter(p, s[base + 1..]), s, rest)
    ensures Picks(p, s, base, at) && Selects(Filter(p, s[base..]), s, at)
  {
    FilterFrom(p, s, base);
    PicksOneMore(p, s, base, rest);
    if p(s[base]) {
      SelectsOneMore(Filter(p, s[base + 1..]), s, base, rest);
      at := [base] + rest;
    } else {
      at := rest;
    }
  }

  /** What a filter keeps, by its indexes: it keeps the order, and everything that passes. */
  lemma {:induction false} FilterIndexes(p: Entry -> bool, s: seq<Entry>, base: nat) returns (at: seq<nat>)
    requires base <= |s|
    ensures Picks(p, s, base, at) && Selects(Filter(p, s[base..]), s, at)
    decreases |s| - base
  {
    if base == |s| {
      at := [];
    } else {
      var rest := FilterIndexes(p, s, base + 1);
      at := OneMoreKept(p, s, base, rest);
    }
  }

  lemma {:induction false} Spread(data: seq<Entry>, i: nat, j: nat)
    requires Increasing(data) && i <= j < |data|
    ensures data[j].offset - data[i].offset >= j - i
  {
    if i < j {
      Spread(data, i, j - 1);
    }
  }

  ghost predicate Stored(data: seq<Entry>, n: int) {
    exists i :: 0 <= i < |data| && data[i].offset == n
  }

  lemma {:induction false} IndexIfStored(data: seq<Entry>, o: int)
    requires Numbered(data) && data != [] && Low(data) <= o
    requires forall n :: Low(data) <= n <= o ==> Stored(data, n)
    ensures o - Low(data) < |data| && data[o - Low(data)].offset == o
    decreases o - Low(data)
  {
    if o > Low(data) {
      IndexIfStored(data, o - 1);
      assert Stored(data, o);
    }
  }

  lemma {:induction false} AllStoredUpTo(data: seq<Entry>, k: nat, n: int)
    requires Numbered(data) && k < |data| && data[k].offset == Low(data) + k && Low(data) <= n <= data[k].offset
    ensures Stored(data, n)
  {
    Spread(data, 0, n - Low(data));
    Spread(data, n - Low(data), k);
  }

  lemma FromWithGaps(data: seq<Entry>, o: uint64)
    requires Numbered(data) && From(data, o).Ok?
    ensures forall e :: e in From(data, o).value ==> e.offset > o && e in data
    ensures From(data, o).value == After(data, o) <==> forall n :: Low(data) <= n <= o ==> Stored(data, n)
  {
    var k := o - Low(data);
    Spread(data, 0, k);
    if data[k].offset == o {
      AfterIsSuffix(data, k + 1, o);
      forall n | Low(data) <= n <= o
        ensures Stored(data, n)
      {
        AllStoredUpTo(data, k, n);
      }
    } else {
      var p := (e: Entry) => e.offset > o;
      FilterSplit(p, data, k);
      FilterAll(p, data[k..]);
      if forall n :: Low(data) <= n <= o ==> Stored(data, n) {
        IndexIfStored(data, o);
        assert false;
      }
    }
  }

  /** With gaps, after every run without wraps: the answer holds nothing at or before `o`, and it holds
      everything the stream has after `o` if and only if no offset from the lowest up to `o` is missing. */
  lemma {:induction false} ResumeWithGaps(c: Config, ops: seq<Op>, o: uint64)
    requires c.limit >= 1 && NoWrap(c, ops) && From(Run(c, ops).data, o).Ok?
    ensures var data := Run(c, ops).data;
      && (forall e :: e in From(data, o).value ==> e.offset > o && e in data)
      && (From(data, o).value == After(data, o) <==> forall n :: Low(data) <= n <= o ==> Stored(data, n))
  {
    RunEndsLog(c, ops);
    NumberedIffNoWrap(c, ops);
    FromWithGaps(Run(c, ops).data, o);
  }

  lemma {:induction false} RunOne(c: Config, op: Op)
    requires c.limit >= 1 && (op.Insert? ==> op.offset > 0)
    ensures Run(c, [op]) == Apply(c, EMPTY, op) && Log(c, [op]) == Appended(EMPTY, op) && NoWrap(c, [op])
  {
    assert [op][..0] == [];
    assert [] + Appended(EMPTY, op) == Appended(EMPTY, op);
  }

  lemma {:induction false} RunSnoc(c: Config, ops: seq<Op>, op: Op)
    requires c.limit >= 1
    ensures Run(c, ops + [op]) == Apply(c, Run(c, ops), op)
    ensures Log(c, ops + [op]) == Log(c, ops) + Appended(Run(c, ops), op)
  {
    assert (ops + [op])[..|ops|] == ops;
  }

  lemma {:induction false} GapRun(c: Config, now: int)
    requires c.limit >= 2
    ensures var ops := [Insert("a", 1, None, now)] + [Insert("b", 5, None, now)];
      var data := [Entry(now, 1, "a")] + [Entry(now, 5, "b")];
      Run(c, ops).data == data && Log(c, ops) == data
  {
    var a, b := Insert("a", 1, None, now), Insert("b", 5, None, now);
    RunOne(c, a);
    RunSnoc(c, [a], b);
  }

  lemma {:induction false} SkipsTheNext(x: Entry, y: Entry, o: uint64)
    requires 0 < x.offset && x.offset + 1 == o < y.offset
    ensures From([x] + [y], o) == Ok([]) && After([x] + [y], o) == [y]
  {
    var data := [x] + [y];
    AfterIsSuffix(data, 1, o);
    assert data[1..] == [y] && data[2..] == [];
  }

  /** With offsets 1 and 5 stored, a request for everything after 2 is answered with nothing. */
  lemma {:induction false} GapMissed(c: Config, now: int)
    requires c.limit >= 2
    ensures var ops := [Insert("a", 1, None, now)] + [Insert("b", 5, None, now)];
      From(Run(c, ops).data, 2) == Ok([]) && After(Log(c, ops), 2) == [Entry(now, 5, "b")]
  {
    GapRun(c, now);
    SkipsTheNext(Entry(now, 1, "a"), Entry(now, 5, "b"), 2);
  }

  /** A stream stored at the largest offset wraps on the next `Add`, and then a resume from the
      largest offset answers with an entry numbered zero. */
  lemma {:induction false} WrapBreaksResume(c: Config, now: int)
    requires c.limit >= 2
    ensures var ops := [Insert("a", MAX_UINT64, None, now)] + [Op.Add("b", now)];
      !NoWrap(c, ops) && From(Run(c, ops).data, MAX_UINT64) == Ok([Entry(now, 0, "b")])
  {
    var a, b := Insert("a", MAX_UINT64, None, now), Op.Add("b", now);
    RunOne(c, a);
    RunSnoc(c, [a], b);
    assert ([a] + [b])[..1] == [a];
    var data := [Entry(now, MAX_UINT64, "a")] + [Entry(now, 0, "b")];
    assert Run(c, [a] + [b]).data == data && data[1..] == [data[1]];
  }

  // Expiry.

  /** Cutting the stale prefix never loses an entry that is still live. */
  lemma {:induction false} ExpireKeepsLive(data: seq<Entry>, bound: int)
    ensures Since(DropStale(data, bound), bound) == Since(data, bound)
  {
    if data != [] && data[0].timestamp < bound {
      ExpireKeepsLive(data[1..], bound);
    }
  }

  /** The cut is the exact filter by age if and only if no stale entry follows a live one. */
  lemma {:induction false} ExpireExact(data: seq<Entry>, bound: int)
    ensures DropStale(data, bound) == Since(data, bound) <==>
            forall i, j :: 0 <= i < j < |data| && data[j].timestamp < bound ==> data[i].timestamp < bound
  {
    if data != [] {
      if data[0].timestamp < bound {
        ExpireExact(data[1..], bound);
        assert forall i :: 0 < i < |data| ==> data[i] == data[1..][i - 1];
      } else {
        var p := (e: Entry) => e.timestamp >= bound;
        FilterAll(p, data);
        assert forall j :: 0 < j < |data| && data[j].timestamp < bound ==> data[0].timestamp >= bound;
      }
    }
  }

  predicate InTimeOrder(s: seq<Entry>) {
    forall i, j :: 0 <= i < j < |s| ==> s[i].timestamp <= s[j].timestamp
  }

  /** Clock readings never go back, and `Insert` leaves the time to the clock. */
  predicate ByTheClock(ops: seq<Op>) {
    && (forall i, j :: 0 <= i < j < |ops| ==> ops[i].now <= ops[j].now)
    && (forall i :: 0 <= i < |ops| && ops[i].Insert? ==> ops[i].time.None?)
  }

  lemma {:induction false} LogInTimeOrder(c: Config, ops: seq<Op>)
    requires c.limit >= 1 && ByTheClock(ops)
    ensures InTimeOrder(Log(c, ops))
    ensures forall e :: e in Log(c, ops) ==> ops != [] && e.timestamp <= ops[|ops| - 1].now
  {
    if ops != [] {
      LogInTimeOrder(c, ops[..|ops| - 1]);
    }
  }

  /** With a monotone clock the cut is the exact filter by age, after every run. */
  lemma {:induction false} ClockedExpireExact(c: Config, ops: seq<Op>, bound: int)
    requires c.limit >= 1 && ByTheClock(ops)
    ensures DropStale(Run(c, ops).data, bound) == Since(Run(c, ops).data, bound)
  {
    LogInTimeOrder(c, ops);
    RunEndsLog(c, ops);
    ExpireExact(Run(c, ops).data, bound);
  }

  /** Clock readings never go back, and `Insert` is never given a time more than nine TTLs ahead. */
  predicate Clocked(c: Config, ops: seq<Op>) {
    && (forall i, j :: 0 <= i < j < |ops| ==> ops[i].now <= ops[j].now)
    && (forall i :: 0 <= i < |ops| ==> WithinReach(c, ops[i]))
  }

  /** The deadline is ten TTLs away, and an entry is live for one. */
  predicate WithinReach(c: Config, op: Op) {
    op.Insert? && op.time.Some? ==> op.time.value <= op.now + 9 * c.ttl
  }

  /** Every entry is stale when the deadline has passed. */
  predicate Covered(c: Config, st: Stream) {
    forall i :: 0 <= i < |st.data| ==> st.data[i].timestamp + c.ttl <= st.deadline
  }

  lemma StepCovered(c: Config, st: Stream, op: Op)
    requires c.limit >= 1 && c.ttl >= 0 && Covered(c, st) && WithinReach(c, op)
    requires st.data != [] ==> st.deadline <= op.now + 10 * c.ttl
    ensures var after := Apply(c, st, op);
      Covered(c, after) && (after.data != [] ==> after.deadline <= op.now + 10 * c.ttl)
  {
    if op.Expire? {
      DropStaleSuffix(st.data, op.now - c.ttl);
    }
  }

  lemma {:induction false} RunCovered(c: Config, ops: seq<Op>)
    requires c.limit >= 1 && c.ttl >= 0 && Clocked(c, ops)
    ensures Covered(c, Run(c, ops))
    ensures ops != [] && Run(c, ops).data != [] ==> Run(c, ops).deadline <= ops[|ops| - 1].now + 10 * c.ttl
  {
    if ops != [] {
      var init := ops[..|ops| - 1];
      RunCovered(c, init);
      StepCovered(c, Run(c, init), ops[|ops| - 1]);
    }
  }

  predicate LiveAt(c: Config, st: Stream, at: int) {
    Since(st.data, at - c.ttl) != []
  }

  /** Whenever the deadline has passed, deleting the whole stream loses nothing within the history TTL. */
  ghost predicate SafeToDelete(c: Config, st: Stream) {
    forall at :: LiveAt(c, st, at) ==> at <= st.deadline
  }

  lemma CoveredIsSafe(c: Config, st: Stream)
    requires Covered(c, st)
    ensures SafeToDelete(c, st)
  {
    forall at | LiveAt(c, st, at)
      ensures at <= st.deadline
    {
      FilterAll((e: Entry) => e.timestamp >= at - c.ttl, st.data);
    }
  }

  /** Deleting a stream past its deadline loses nothing live, after every run whose entries are dated at most
      nine TTLs ahead of the clock. */
  lemma {:induction false} DeadlineCoversData(c: Config, ops: seq<Op>)
    requires c.limit >= 1 && c.ttl >= 0 && Clocked(c, ops)
    ensures SafeToDelete(c, Run(c, ops))
  {
    RunCovered(c, ops);
    CoveredIsSafe(c, Run(c, ops));
  }

  /** Nine TTLs is exact: after any such run, an entry that is accepted leaves the stream safe to delete past its
      deadline if and only if it is dated at most nine TTLs ahead of the clock. */
  lemma {:induction false} SafeIffWithinReach(c: Config, ops: seq<Op>, op: Op)
    requires c.limit >= 1 && c.ttl >= 0 && Clocked(c, ops) && Appended(Run(c, ops), op) != []
    requires forall i :: 0 <= i < |ops| ==> ops[i].now <= op.now
    ensures SafeToDelete(c, Apply(c, Run(c, ops), op)) <==> WithinReach(c, op)
  {
    if WithinReach(c, op) {
      RunCovered(c, ops);
      StepCovered(c, Run(c, ops), op);
      CoveredIsSafe(c, Apply(c, Run(c, ops), op));
    } else {
      OutOfReach(c, Run(c, ops), op);
    }
  }

  lemma OutOfReach(c: Config, st: Stream, op: Op)
    requires c.limit >= 1 && Appended(st, op) != [] && !WithinReach(c, op)
    ensures !SafeToDelete(c, Apply(c, st, op))
  {
    var after := Apply(c, st, op);
    assert after.data[|after.data| - 1] == Appended(st, op)[0];
    LastIsLive(after.data, after.deadline + 1 - c.ttl);
    assert LiveAt(c, after, after.deadline + 1);
  }

  lemma LastIsLive(data: seq<Entry>, bound: int)
    requires data != [] && data[|data| - 1].timestamp >= bound
    ensures Since(data, bound) != []
  {
    var p, last := (e: Entry) => e.timestamp >= bound, |data| - 1;
    FilterSplit(p, data, last);
    FilterAll(p, data[last..]);
  }

  /** An entry dated further ahead can still be live when its stream's deadline passes. */
  lemma {:induction false} FutureEntryLost(c: Config, now: int)
    requires c.limit >= 1 && c.ttl >= 0
    ensures var later := now + 10 * c.ttl + 1;
      var ops := [Insert("a", 1, Some(later), now)];
      Run(c, ops).deadline < later && LiveAt(c, Run(c, ops), later)
  {
    RunOne(c, Insert("a", 1, Some(now + 10 * c.ttl + 1), now));
  }
}
