/**
 The (stream, identifier) pairs the hub lists for a session (`hub/hub.go`, `HubSessionInfo`), and the
 loop that unsubscribes one channel while it ranges over the very array that `RemoveStream` shifts.
 */
module SessionStreams {
  import opened Basics
  import opened Names

  type Pair = (Name, Name)

  function RemoveFirst(ps: seq<Pair>, p: Pair): seq<Pair> {
    if ps == [] then [] else if ps[0] == p then ps[1..] else [ps[0]] + RemoveFirst(ps[1..], p)
  }

  lemma {:induction false} RemoveFirstAt(ps: seq<Pair>, p: Pair, i: nat)
    requires i < |ps| && ps[i] == p && p !in ps[..i]
    ensures RemoveFirst(ps, p) == ps[..i] + ps[i + 1..]
  {
    if i > 0 {
      assert ps[..i][0] == ps[0] && ps[1..][..i - 1] == ps[..i][1..];
      RemoveFirstAt(ps[1..], p, i - 1);
    }
  }

  lemma {:induction false} RemoveFirstAbsent(ps: seq<Pair>, p: Pair)
    requires p !in ps
    ensures RemoveFirst(ps, p) == ps
  {
    if ps != [] {
      RemoveFirstAbsent(ps[1..], p);
    }
  }

  lemma {:induction false} RemoveFirstKeeps(ps: seq<Pair>, p: Pair, q: Pair)
    ensures q != p ==> (q in RemoveFirst(ps, p) <==> q in ps)
    ensures q in RemoveFirst(ps, p) ==> q in ps
    ensures |RemoveFirst(ps, p)| == if p in ps then |ps| - 1 else |ps|
  {
    if ps != [] {
      RemoveFirstKeeps(ps[1..], p, q);
      assert ps == [ps[0]] + ps[1..];
    }
  }

  method FindFirst(a: array<Pair>, len: nat, p: Pair) returns (i: nat)
    requires len <= a.Length
    ensures i <= len && p !in a[..i] && (i < len ==> a[i] == p)
  {
    i := 0;
    while i < len && a[i] != p
      invariant i <= len && p !in a[..i]
    {
      i := i + 1;
    }
  }

  /** Copies the cells behind `i` down by one. */
  method MoveUp(a: array<Pair>, i: nat, len: nat)
    requires i < len <= a.Length
    modifies a
    ensures a[..] == old(a[..i] + a[i + 1..len] + a[len - 1..])
  {
    var j := i;
    while j + 1 < len
      invariant i <= j < len
      invariant forall m :: 0 <= m < i ==> a[m] == old(a[m])
      invariant forall m :: i <= m < j ==> a[m] == old(a[m + 1])
      invariant forall m :: j <= m < a.Length ==> a[m] == old(a[m])
    {
      a[j] := a[j + 1];
      j := j + 1;
    }
  }

  /** `RemoveStream` on the backing array: the pairs behind the first occurrence move up by one, and the
      cells from the new length on keep what they held. */
  method RemoveInPlace(a: array<Pair>, len: nat, p: Pair) returns (len': nat)
    requires len <= a.Length
    modifies a
    ensures len' <= len && a[..len'] == RemoveFirst(old(a[..len]), p)
    ensures a[len'..] == old(a[len'..])
  {
    ghost var cells, was := a[..], a[..len];
    var i := FindFirst(a, len, p);
    if i == len {
      RemoveFirstAbsent(was, p);
      return len;
    }
    RemoveFirstAt(was, p, i);
    assert cells[..i] == was[..i] && cells[i + 1..len] == was[i + 1..];
    MoveUp(a, i, len);
    return len - 1;
  }

  /** The cells after `RemoveInPlace`. */
  function Shifted(cells: seq<Pair>, len: nat, p: Pair): (r: (seq<Pair>, nat))
    requires len <= |cells|
    ensures |r.0| == |cells| && r.1 <= len
  {
    RemoveFirstKeeps(cells[..len], p, p);
    var left := RemoveFirst(cells[..len], p);
    (left + cells[|left|..], |left|)
  }

  lemma {:induction false} ShiftedCells(cells: seq<Pair>, len: nat, p: Pair)
    requires len <= |cells|
    ensures var r := Shifted(cells, len, p);
      r.0[..r.1] == RemoveFirst(cells[..len], p) && r.0[r.1..] == cells[r.1..]
  {
  }

  lemma ShiftedBehind(cells: seq<Pair>, len: nat, p: Pair, i: nat)
    requires len <= |cells| && Shifted(cells, len, p).1 <= i < |cells|
    ensures Shifted(cells, len, p).0[i] == cells[i]
  {
    var r := Shifted(cells, len, p);
    ShiftedCells(cells, len, p);
    assert r.0[r.1..][i - r.1] == cells[r.1..][i - r.1];
  }

  /** What the loop makes of the cells from position `k` on: the pairs still listed, and the pairs it
      unsubscribed from the gates. */
  function Sweep(cells: seq<Pair>, len: nat, k: nat, target: Name): (seq<Pair>, set<Pair>)
    requires len <= |cells| && k <= |cells|
    decreases |cells| - k
  {
    if k == |cells| then (cells[..len], {})
    else if cells[k].1 != target then Sweep(cells, len, k + 1, target)
    else
      var next := Shifted(cells, len, cells[k]);
      var rest := Sweep(next.0, next.1, k + 1, target);
      (rest.0, rest.1 + {cells[k]})
  }

  /** The outcome of a loop that has reached `k` and unsubscribed `removed` so far. */
  function SweepLeft(cells: seq<Pair>, len: nat, k: nat, target: Name, removed: set<Pair>): (seq<Pair>, set<Pair>)
    requires len <= |cells| && k <= |cells|
  {
    var rest := Sweep(cells, len, k, target);
    (rest.0, rest.1 + removed)
  }

  lemma SweepRound(cells: seq<Pair>, len: nat, k: nat, target: Name, removed: set<Pair>)
    requires len <= |cells| && k < |cells|
    ensures var next := if cells[k].1 == target then Shifted(cells, len, cells[k]) else (cells, len);
      SweepLeft(cells, len, k, target, removed) ==
      SweepLeft(next.0, next.1, k + 1, target, if cells[k].1 == target then removed + {cells[k]} else removed)
  {
    if cells[k].1 == target {
      var next := Shifted(cells, len, cells[k]);
      var rest := Sweep(next.0, next.1, k + 1, target);
      assert rest.1 + {cells[k]} + removed == rest.1 + (removed + {cells[k]});
    }
  }

  /** Only the target channel is touched: everything unsubscribed is a listed pair of the channel, and
      every pair that was listed is still listed or was unsubscribed. For every list, repeats included. */
  lemma {:induction false} SweepTouches(cells: seq<Pair>, len: nat, k: nat, target: Name, all: seq<Pair>)
    requires len <= |cells| && k <= |cells|
    requires forall p :: p in cells ==> p in all
    ensures var r := Sweep(cells, len, k, target);
      && (forall p :: p in r.1 ==> p.1 == target && p in all)
      && (forall p :: p in cells[..len] ==> p in r.0 || p in r.1)
      && (forall p :: p in cells[..len] && p.1 != target ==> p in r.0)
      && (forall p :: p in r.0 ==> p in cells[..len])
    decreases |cells| - k
  {
    if k < |cells| {
      if cells[k].1 != target {
        SweepTouches(cells, len, k + 1, target, all);
      } else {
        var next := Shifted(cells, len, cells[k]);
        ShiftedCells(cells, len, cells[k]);
        forall p | p in next.0
          ensures p in cells
        {
          RemoveFirstKeeps(cells[..len], cells[k], p);
          assert next.0 == next.0[..next.1] + next.0[next.1..];
        }
        SweepTouches(next.0, next.1, k + 1, target, all);
        forall p
          ensures p != cells[k] ==> (p in next.0[..next.1] <==> p in cells[..len])
          ensures p in next.0[..next.1] ==> p in cells[..len]
        {
          RemoveFirstKeeps(cells[..len], cells[k], p);
        }
      }
    }
  }

  // Lists without repeats.

  /** What is left of a list without repeats: behind every pair removed the next one is skipped, unless
      it is the very last, whose old copy is still read at the end. */
  function Skip(ps: seq<Pair>, target: Name): seq<Pair> {
    if ps == [] then []
    else if ps[0].1 != target then [ps[0]] + Skip(ps[1..], target)
    else if |ps| == 1 then []
    else if |ps| == 2 then (if ps[1].1 == target then [] else [ps[1]])
    else [ps[1]] + Skip(ps[2..], target)
  }

  /** The channel is cleared from the list. */
  predicate Cleared(ps: seq<Pair>, target: Name) {
    forall i :: 0 <= i < |ps| ==> ps[i].1 != target
  }

  /** No two pairs of the channel are next to each other, except for the last two of the list. */
  predicate Spaced(ps: seq<Pair>, target: Name) {
    forall i :: 0 <= i && i + 2 < |ps| ==> !(ps[i].1 == target && ps[i + 1].1 == target)
  }

  lemma {:induction false} SkipClearsIffSpaced(ps: seq<Pair>, target: Name)
    ensures Cleared(Skip(ps, target), target) <==> Spaced(ps, target)
  {
    if ps != [] {
      if ps[0].1 != target {
        SkipClearsIffSpaced(ps[1..], target);
        SpacedTail(ps, target);
        ClearedCons(ps[0], Skip(ps[1..], target), target);
      } else if |ps| > 2 {
        SkipClearsIffSpaced(ps[2..], target);
        SpacedTail(ps, target);
        SpacedTail(ps[1..], target);
        assert ps[1..][1..] == ps[2..];
        ClearedCons(ps[1], Skip(ps[2..], target), target);
      }
    }
  }

  lemma ClearedCons(p: Pair, ps: seq<Pair>, target: Name)
    ensures Cleared([p] + ps, target) <==> p.1 != target && Cleared(ps, target)
  {
    assert ([p] + ps)[0] == p && forall i :: 0 <= i < |ps| ==> ([p] + ps)[i + 1] == ps[i];
  }

  lemma SpacedTail(ps: seq<Pair>, target: Name)
    requires ps != []
    ensures Spaced(ps, target) <==> Spaced(ps[1..], target) && !(|ps| > 2 && ps[0].1 == target && ps[1].1 == target)
  {
    var tail := ps[1..];
    assert forall i :: 0 <= i < |tail| ==> tail[i] == ps[i + 1];
    if Spaced(tail, target) && !(|ps| > 2 && ps[0].1 == target && ps[1].1 == target) {
      forall i | 0 <= i && i + 2 < |ps|
        ensures !(ps[i].1 == target && ps[i + 1].1 == target)
      {
        if i > 0 {
          assert !(tail[i - 1].1 == target && tail[i].1 == target);
        }
      }
    }
  }

  lemma {:induction false} RemoveFirstNoDup(ps: seq<Pair>, p: Pair)
    requires NoDup(ps)
    ensures NoDup(RemoveFirst(ps, p)) && p !in RemoveFirst(ps, p)
  {
    if i :| 0 <= i < |ps| && ps[i] == p {
      RemoveFirstAt(ps, p, i);
    } else {
      RemoveFirstAbsent(ps, p);
    }
  }

  /** In a list without repeats, what was unsubscribed is no longer listed. */
  lemma {:induction false} SweepRemoves(cells: seq<Pair>, len: nat, k: nat, target: Name)
    requires len <= |cells| && k <= |cells| && NoDup(cells[..len])
    ensures var r := Sweep(cells, len, k, target); forall p :: p in r.1 ==> p !in r.0
    decreases |cells| - k
  {
    if k < |cells| {
      if cells[k].1 != target {
        assert Sweep(cells, len, k, target) == Sweep(cells, len, k + 1, target);
        SweepRemoves(cells, len, k + 1, target);
      } else {
        var next := Shifted(cells, len, cells[k]);
        ShiftedCells(cells, len, cells[k]);
        RemoveFirstNoDup(cells[..len], cells[k]);
        SweepRemoves(next.0, next.1, k + 1, target);
        SweepTouches(next.0, next.1, k + 1, target, next.0);
        var rest := Sweep(next.0, next.1, k + 1, target);
        assert Sweep(cells, len, k, target) == (rest.0, rest.1 + {cells[k]});
        assert cells[k] !in rest.0;
      }
    }
  }

  /** The end of the loop: the cells past the list all hold old copies of one pair. */
  lemma {:induction false} SweepCopies(cells: seq<Pair>, len: nat, k: nat, target: Name, last: Pair)
    requires len <= k <= |cells| && NoDup(cells[..len])
    requires forall i :: k <= i < |cells| ==> cells[i] == last
    ensures Sweep(cells, len, k, target).0 ==
            if k < |cells| && last.1 == target then RemoveFirst(cells[..len], last) else cells[..len]
    decreases |cells| - k
  {
    if k < |cells| {
      if last.1 != target {
        SweepCopies(cells, len, k + 1, target, last);
      } else {
        var next := Shifted(cells, len, last);
        ShiftedCells(cells, len, last);
        RemoveFirstNoDup(cells[..len], last);
        RemoveFirstAbsent(RemoveFirst(cells[..len], last), last);
        forall i | k < i < |cells|
          ensures next.0[i] == last
        {
          ShiftedBehind(cells, len, last, i);
        }
        SweepCopies(next.0, next.1, k + 1, target, last);
      }
    }
  }

  /** The cells while the loop runs: the pairs it has passed and kept, the pairs ahead of it, and behind
      the list as many old copies of the last pair as pairs were removed. */
  function Cells(kept: seq<Pair>, ahead: seq<Pair>, last: Pair, copies: nat): seq<Pair> {
    kept + ahead + seq(copies, i => last)
  }

  /** Removing the pair that is read: the pairs behind it move up, and one more copy is left behind. */
  lemma ShiftedHead(kept: seq<Pair>, ahead: seq<Pair>, last: Pair, copies: nat)
    requires ahead != [] && ahead[|ahead| - 1] == last && NoDup(kept + ahead)
    ensures Shifted(Cells(kept, ahead, last, copies), |kept + ahead|, ahead[0]) ==
            (Cells(kept, ahead[1..], last, copies + 1), |kept + ahead| - 1)
  {
    var cells, list := Cells(kept, ahead, last, copies), kept + ahead;
    assert cells[..|list|] == list;
    assert list[|kept|] == ahead[0] && forall i :: 0 <= i < |kept| ==> kept[i] == list[i];
    RemoveFirstAt(list, ahead[0], |kept|);
    assert RemoveFirst(list, ahead[0]) == kept + ahead[1..];
    assert cells[|list| - 1..] == seq(copies + 1, i => last);
  }

  lemma CellsSplit(kept: seq<Pair>, ahead: seq<Pair>, last: Pair, copies: nat)
    requires ahead != []
    ensures Cells(kept, ahead, last, copies) == Cells(kept + [ahead[0]], ahead[1..], last, copies)
    ensures kept + ahead == kept + [ahead[0]] + ahead[1..]
    ensures Cells(kept, ahead, last, copies)[|kept|] == ahead[0]
  {
  }

  /** At the end of the list the loop goes on over the copies. */
  lemma {:induction false} SweepEnd(kept: seq<Pair>, last: Pair, copies: nat, k: nat, target: Name)
    requires NoDup(kept) && |kept| <= k <= |kept| + copies
    ensures Sweep(Cells(kept, [], last, copies), |kept|, k, target).0 ==
            if k < |kept| + copies && last.1 == target then RemoveFirst(kept, last) else kept
  {
    var cells := Cells(kept, [], last, copies);
    assert cells[..|kept|] == kept;
    SweepCopies(cells, |kept|, k, target, last);
  }

  ghost predicate Skips(kept: seq<Pair>, ahead: seq<Pair>, last: Pair, copies: nat, target: Name) {
    Sweep(Cells(kept, ahead, last, copies), |kept + ahead|, |kept|, target).0 == kept + Skip(ahead, target)
  }

  /** The loop in the middle of a list. */
  lemma {:induction false} SweepSkips(kept: seq<Pair>, ahead: seq<Pair>, last: Pair, copies: nat, target: Name)
    requires NoDup(kept + ahead) && (ahead != [] ==> ahead[|ahead| - 1] == last)
    requires ahead == [] && copies > 0 && last.1 == target ==> last !in kept
    ensures Skips(kept, ahead, last, copies, target)
    decreases |ahead|
  {
    if ahead == [] {
      assert kept + ahead == kept;
      SkipsAtEnd(kept, last, copies, target);
    } else if ahead[0].1 != target {
      CellsSplit(kept, ahead, last, copies);
      SweepSkips(kept + [ahead[0]], ahead[1..], last, copies, target);
      SkipsPast(kept, ahead, last, copies, target);
    } else if |ahead| > 2 {
      SweepTarget(kept, ahead, last, copies, target);
      SweepSkips(kept + [ahead[1]], ahead[2..], last, copies + 1, target);
      SkipsOver(kept, ahead, last, copies, target);
    } else if |ahead| == 1 {
      assert ahead == [last];
      SweepOne(kept, last, copies, target);
      assert kept + Skip(ahead, target) == kept;
    } else {
      assert ahead == [ahead[0], last];
      SweepTwo(kept, ahead[0], last, copies, target);
    }
  }

  lemma SkipsAtEnd(kept: seq<Pair>, last: Pair, copies: nat, target: Name)
    requires NoDup(kept) && (copies > 0 && last.1 == target ==> last !in kept)
    ensures Skips(kept, [], last, copies, target)
  {
    assert kept + [] == kept;
    SweepEnd(kept, last, copies, |kept|, target);
    if last !in kept {
      RemoveFirstAbsent(kept, last);
    }
  }

  lemma SkipsPast(kept: seq<Pair>, ahead: seq<Pair>, last: Pair, copies: nat, target: Name)
    requires ahead != [] && ahead[0].1 != target
    requires Skips(kept + [ahead[0]], ahead[1..], last, copies, target)
    ensures Skips(kept, ahead, last, copies, target)
  {
    CellsSplit(kept, ahead, last, copies);
    SkipPast(kept, ahead, target);
  }

  lemma {:induction false} SkipPast(kept: seq<Pair>, ahead: seq<Pair>, target: Name)
    requires ahead != [] && ahead[0].1 != target
    ensures kept + [ahead[0]] + Skip(ahead[1..], target) == kept + Skip(ahead, target)
  {
    assert Skip(ahead, target) == [ahead[0]] + Skip(ahead[1..], target);
  }

  lemma {:induction false} SkipsOver(kept: seq<Pair>, ahead: seq<Pair>, last: Pair, copies: nat, target: Name)
    requires |ahead| > 2 && ahead[0].1 == target
    requires Sweep(Cells(kept, ahead, last, copies), |kept + ahead|, |kept|, target).0 ==
             Sweep(Cells(kept + [ahead[1]], ahead[2..], last, copies + 1), |kept + ahead| - 1, |kept| + 1, target).0
    requires Skips(kept + [ahead[1]], ahead[2..], last, copies + 1, target)
    ensures Skips(kept, ahead, last, copies, target)
  {
    SkipOver(kept, ahead, target);
    assert |kept + [ahead[1]] + ahead[2..]| == |kept + ahead| - 1;
  }

  lemma {:induction false} SkipOver(kept: seq<Pair>, ahead: seq<Pair>, target: Name)
    requires |ahead| > 2 && ahead[0].1 == target
    ensures kept + [ahead[1]] + Skip(ahead[2..], target) == kept + Skip(ahead, target)
  {
    assert Skip(ahead, target) == [ahead[1]] + Skip(ahead[2..], target);
  }

  lemma {:induction false} SweepOne(kept: seq<Pair>, last: Pair, copies: nat, target: Name)
    requires NoDup(kept + [last]) && last.1 == target
    ensures Sweep(Cells(kept, [last], last, copies), |kept| + 1, |kept|, target).0 == kept
  {
    SweepTarget(kept, [last], last, copies, target);
    LastOne(kept, [last]);
    SweepEnd(kept, last, copies + 1, |kept| + 1, target);
  }

  lemma {:induction false} SweepTwo(kept: seq<Pair>, p: Pair, last: Pair, copies: nat, target: Name)
    requires NoDup(kept + [p, last]) && p.1 == target
    ensures Sweep(Cells(kept, [p, last], last, copies), |kept| + 2, |kept|, target).0 ==
            if last.1 == target then kept else kept + [last]
  {
    var ahead := [p, last];
    SweepTarget(kept, ahead, last, copies, target);
    LastOne(kept, ahead);
    assert ahead[2..] == [] && kept + [last] + [] == kept + [last];
    SweepEnd(kept + [last], last, copies + 1, |kept| + 1, target);
  }

  lemma {:induction false} SweepTarget(kept: seq<Pair>, ahead: seq<Pair>, last: Pair, copies: nat, target: Name)
    requires ahead != [] && ahead[|ahead| - 1] == last && NoDup(kept + ahead) && ahead[0].1 == target
    ensures var r := Sweep(Cells(kept, ahead, last, copies), |kept + ahead|, |kept|, target).0;
      if |ahead| == 1 then r == Sweep(Cells(kept, [], last, copies + 1), |kept|, |kept| + 1, target).0
      else
        && r == Sweep(Cells(kept + [ahead[1]], ahead[2..], last, copies + 1), |kept + ahead| - 1, |kept| + 1, target).0
        && NoDup(kept + [ahead[1]] + ahead[2..]) && |kept + [ahead[1]] + ahead[2..]| == |kept + ahead| - 1
  {
    CellsSplit(kept, ahead, last, copies);
    ShiftedHead(kept, ahead, last, copies);
    if |ahead| > 1 {
      CellsSplit(kept, ahead[1..], last, copies + 1);
      assert ahead[1..][1..] == ahead[2..];
      var left := kept + [ahead[1]] + ahead[2..];
      assert forall i :: 0 <= i < |left| ==> left[i] == (kept + ahead)[if i < |kept| then i else i + 1];
    } else {
      assert ahead[1..] == [];
    }
  }

  lemma {:induction false} LastOne(kept: seq<Pair>, ahead: seq<Pair>)
    requires 1 <= |ahead| <= 2 && NoDup(kept + ahead)
    ensures var last := ahead[|ahead| - 1];
      last !in kept && RemoveFirst(kept, last) == kept && RemoveFirst(kept + [last], last) == kept && NoDup(kept)
  {
    var last := ahead[|ahead| - 1];
    assert (kept + ahead)[|kept + ahead| - 1] == last;
    assert forall i :: 0 <= i < |kept| ==> kept[i] == (kept + ahead)[i];
    RemoveFirstAt(kept + [last], last, |kept|);
    RemoveFirstAbsent(kept, last);
  }

  /** The loop over a list without repeats, exactly: what is left is `Skip`, and what was unsubscribed is
      the rest of the channel. */
  lemma {:induction false} SweepExact(list: seq<Pair>, target: Name)
    requires NoDup(list)
    ensures var r := Sweep(list, |list|, 0, target);
      && r.0 == Skip(list, target)
      && forall p :: p in r.1 <==> p in list && p.1 == target && p !in r.0
  {
    assert list[..|list|] == list;
    SweepLeaves(list, target);
    SweepTouches(list, |list|, 0, target, list);
    SweepRemoves(list, |list|, 0, target);
  }

  lemma {:induction false} SweepLeaves(list: seq<Pair>, target: Name)
    requires NoDup(list)
    ensures Sweep(list, |list|, 0, target).0 == Skip(list, target)
  {
    if list == [] {
      assert list[..0] == [];
    } else {
      assert Cells([], list, list[|list| - 1], 0) == list && [] + list == list;
      SweepSkips([], list, list[|list| - 1], 0, target);
      assert [] + Skip(list, target) == Skip(list, target);
    }
  }

  /** The whole channel is unsubscribed if and only if its pairs are spaced out in the list. */
  lemma {:induction false} ChannelClearedIffSpaced(list: seq<Pair>, target: Name)
    requires NoDup(list)
    ensures (forall p :: p in list && p.1 == target ==> p in Sweep(list, |list|, 0, target).1) <==> Spaced(list, target)
  {
    var r := Sweep(list, |list|, 0, target);
    SweepExact(list, target);
    SkipClearsIffSpaced(list, target);
    SweepTouches(list, |list|, 0, target, list);
    assert list[..|list|] == list;
    if !Cleared(r.0, target) {
      var i :| 0 <= i < |r.0| && r.0[i].1 == target;
      assert r.0[i] in list && r.0[i] !in r.1;
    }
  }

  /** With three streams in one channel, the middle one stays subscribed. */
  lemma MiddleStreamSkipped(a: Name, b: Name, c: Name, target: Name)
    requires a != b && b != c && a != c
    ensures var r := Sweep([(a, target), (b, target), (c, target)], 3, 0, target);
      r.0 == [(b, target)] && r.1 == {(a, target), (c, target)}
  {
    var list := [(a, target), (b, target), (c, target)];
    SweepExact(list, target);
    assert list[2..] == [(c, target)];
    assert Skip(list, target) == [(b, target)] + Skip([(c, target)], target);
  }

  // Lists with repeats.

  lemma FirstIndex(ps: seq<Pair>, p: Pair, k: nat) returns (j: nat)
    requires k < |ps| && ps[k] == p
    ensures j <= k && ps[j] == p && p !in ps[..j]
  {
    j := 0;
    while ps[j] != p
      invariant j <= k && p !in ps[..j]
      decreases k - j
    {
      j := j + 1;
    }
  }

  /** Wherever the pair that is read is removed from, the pairs behind it move up. */
  lemma ShiftedAhead(cells: seq<Pair>, len: nat, k: nat)
    requires k < len <= |cells|
    ensures var r := Shifted(cells, len, cells[k]);
      && r.1 == len - 1 && (forall i :: k <= i < len - 1 ==> r.0[i] == cells[i + 1])
      && forall i :: len - 1 <= i < |cells| ==> r.0[i] == cells[i]
  {
    var p, list := cells[k], cells[..len];
    var j := FirstIndex(list, p, k);
    RemoveFirstAt(list, p, j);
    forall i | len - 1 <= i < |cells|
      ensures Shifted(cells, len, p).0[i] == cells[i]
    {
      ShiftedBehind(cells, len, p, i);
    }
  }

  /** What the loop reads of the channel: behind every pair it reads it skips one, except that it gets to the last
      one in any case. */
  function Reads(ps: seq<Pair>, target: Name): set<Pair> {
    if ps == [] then {}
    else if ps[0].1 != target then Reads(ps[1..], target)
    else if |ps| <= 2 then set p | p in ps && p.1 == target
    else {ps[0]} + Reads(ps[2..], target)
  }

  function OnlyIf(b: bool, p: Pair): set<Pair> {
    if b then {p} else {}
  }

  lemma {:induction false} CopiesRead(cells: seq<Pair>, len: nat, k: nat, target: Name, last: Pair)
    requires len <= k <= |cells| && forall i :: k <= i < |cells| ==> cells[i] == last
    ensures Sweep(cells, len, k, target).1 == OnlyIf(k < |cells| && last.1 == target, last)
    decreases |cells| - k
  {
    if k < |cells| {
      var next := if last.1 == target then Shifted(cells, len, last) else (cells, len);
      forall i | k < i < |cells|
        ensures next.0[i] == last
      {
        if last.1 == target {
          ShiftedBehind(cells, len, last, i);
        }
      }
      CopiesRead(next.0, next.1, k + 1, target, last);
    }
  }

  /** The loop in the middle of any list, with copies of its last pair behind it if something was removed. */
  lemma {:induction false} SweepReads(cells: seq<Pair>, len: nat, k: nat, target: Name, last: Pair)
    requires k < len <= |cells| && cells[len - 1] == last && forall i :: len <= i < |cells| ==> cells[i] == last
    ensures Sweep(cells, len, k, target).1 == Reads(cells[k..len], target)
    decreases |cells| - k
  {
    var ahead := cells[k..len];
    if cells[k].1 != target {
      assert ahead[1..] == cells[k + 1..len];
      if k + 1 < len {
        SweepReads(cells, len, k + 1, target, last);
      } else {
        CopiesRead(cells, len, k + 1, target, last);
      }
    } else {
      var next := Shifted(cells, len, cells[k]);
      ShiftedAhead(cells, len, k);
      if k + 2 < len {
        assert next.0[k + 1..len - 1] == ahead[2..];
        SweepReads(next.0, len - 1, k + 1, target, last);
      } else {
        CopiesRead(next.0, len - 1, k + 1, target, last);
        assert ahead == if |ahead| == 1 then [last] else [cells[k], last];
      }
    }
  }

  /** For every list, repeats included: the loop unsubscribes exactly the pairs it reads. */
  lemma {:induction false} SweepReadsExactly(list: seq<Pair>, target: Name)
    ensures Sweep(list, |list|, 0, target).1 == Reads(list, target)
  {
    if list != [] {
      SweepReads(list, |list|, 0, target, list[|list| - 1]);
      assert list[0..|list|] == list;
    }
  }

  /** In a list whose pairs of the channel are spaced out, repeats included, all of them are read. */
  lemma {:induction false} SpacedAllRead(list: seq<Pair>, target: Name, p: Pair)
    requires Spaced(list, target) && p in list && p.1 == target
    ensures p in Reads(list, target)
  {
    if list[0].1 != target {
      assert Spaced(list[1..], target);
      SpacedAllRead(list[1..], target, p);
    } else if |list| > 2 && p != list[0] {
      assert list[1].1 != target && Spaced(list[2..], target);
      assert list == [list[0], list[1]] + list[2..];
      SpacedAllRead(list[2..], target, p);
    }
  }

  /** With repeats, a channel can be cleared although its pairs are not spaced out. */
  lemma RepeatsClearedUnspaced(p: Pair)
    ensures !Spaced([p, p, p], p.1) && Sweep([p, p, p], 3, 0, p.1).1 == {p}
  {
    var list := [p, p, p];
    assert list[0].1 == p.1 && list[1].1 == p.1;
    SweepReadsExactly(list, p.1);
    assert list[2..] == [p];
    assert Reads(list, p.1) == {p} + Reads([p], p.1);
  }
}
