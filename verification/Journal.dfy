/** The bounded audio recovery store: internal/journal/journal.go. */
module Journal {
  import opened Audio

  /** x % m for an index at most one lap past the end. */
  method Wrap(x: int, m: int) returns (r: int)
    requires 0 < m && 0 <= x < 2 * m
    ensures r == if x < m then x else x - m
  {
    r := x % m;
    if m <= x {
      assert x == (x / m) * m + x % m;
      assert x / m == 1;
    }
  }

  // ---- retention ----

  /** The last n elements, or everything when there are fewer. */
  function Newest(log: seq<Record>, n: nat): seq<Record> {
    if |log| <= n then log else log[|log| - n..]
  }

  /** Where the i-th oldest of size retained records lives in a ring of cap slots. */
  ghost function Slot(writeIdx: nat, size: nat, cap: nat, i: nat): (k: nat)
    requires writeIdx < cap && i < size <= cap
    ensures k < cap
  {
    var p := writeIdx - size + i;
    if p < 0 then p + cap else p
  }

  class Ring {
    const records: array<Record>
    var writeIdx: nat
    var size: nat
    var committedSeq: nat
    var haveCommitted: bool
    ghost var log: seq<Record>   // everything ever appended

    ghost predicate Valid()
      reads this, records
    {
      var cap := records.Length;
      && 0 < cap
      && size == (if |log| <= cap then |log| else cap)
      && writeIdx < cap
      && (size < cap ==> writeIdx == size)
      && forall i | 0 <= i < size :: records[Slot(writeIdx, size, records.Length, i)] == log[|log| - size + i]
    }

    ghost function Retained(): seq<Record>
      reads this, records
    {
      Newest(log, records.Length)
    }

    /** What a full replay starts from. */
    ghost function FromCommitted(): seq<Record>
      reads this, records
    {
      if haveCommitted then After(Retained(), committedSeq) else Retained()
    }

    constructor (capacity: nat)
      requires capacity > 0
      ensures Valid() && fresh(records) && records.Length == capacity
      ensures log == [] && !haveCommitted
    {
      records := new Record[capacity](i => Record(0, 0, false, []));
      writeIdx, size, committedSeq, haveCommitted := 0, 0, 0, false;
      log := [];
    }

    method Append(r: Record)
      requires Valid()
      modifies this`writeIdx, this`size, this`log, records
      ensures Valid()
      ensures log == old(log) + [r]
    {
      var cap := records.Length;
      records[writeIdx] := r;
      writeIdx := Wrap(writeIdx + 1, cap);
      if size < cap {
        size := size + 1;
      }
      log := log + [r];
      forall i | 0 <= i < size
        ensures records[Slot(writeIdx, size, records.Length, i)] == log[|log| - size + i]
      {
        if i < size - 1 {
          ghost var j := if old(size) < cap then i else i + 1;
          assert old(records[Slot(writeIdx, size, records.Length, j)]) == log[|log| - size + i];
          assert Slot(writeIdx, size, cap, i) == old(Slot(writeIdx, size, records.Length, j));
        }
      }
    }

    /** Everything retained, oldest first. */
    method Entries() returns (out: seq<Record>)
      requires Valid()
      ensures out == Retained()
    {
      var cap := records.Length;
      out := [];
      var start := Wrap(writeIdx - size + cap, cap);
      for i := 0 to size
        invariant |out| == i
        invariant forall k | 0 <= k < i :: out[k] == log[|log| - size + k]
      {
        var slot := Wrap(start + i, cap);
        assert slot == Slot(writeIdx, size, cap, i);
        out := out + [records[slot]];
      }
    }

    method ReadAfter(q: nat) returns (out: seq<Record>)
      requires Valid()
      ensures out == After(Retained(), q)
    {
      var all := Entries();
      out := [];
      for i := 0 to |all|
        invariant out == After(all[..i], q)
      {
        assert all[..i+1][..i] == all[..i];
        if all[i].seqNo > q {
          out := out + [all[i]];
        }
      }
      assert all[..|all|] == all;
    }

    method ReadFromCommitted() returns (out: seq<Record>)
      requires Valid()
      ensures out == FromCommitted()
    {
      if !haveCommitted {
        out := Entries();
      } else {
        out := ReadAfter(committedSeq);
      }
    }

    method TrimBefore(q: nat)
      requires Valid()
      modifies this`committedSeq, this`haveCommitted
      ensures Valid()
      ensures haveCommitted && committedSeq == q
      ensures FromCommitted() == After(Retained(), q)
    {
      committedSeq := q;
      haveCommitted := true;
    }
  }

  // ---- what replay can rely on ----

  /** On increasing records ReadAfter returns the suffix above its bound. */
  lemma {:induction false} AfterSplits(rs: seq<Record>, floor: nat, q: nat) returns (xs: seq<Record>, ys: seq<Record>)
    requires Increasing(rs, floor)
    ensures rs == xs + ys && After(rs, q) == ys
    ensures Increasing(xs, floor) && LastSeq(xs, 0) <= q
    ensures Increasing(ys, q)
  {
    if rs == [] {
      xs, ys := [], [];
    } else {
      var init, r := rs[..|rs|-1], rs[|rs|-1];
      hide After, Increasing;
      xs, ys := AfterSplits(init, floor, q);
      assert rs == init + [r];
      AfterSnoc(init, r, q);
      IncreasingSnoc(rs, floor);
      if ys != [] {
        LastOfConcat(xs, ys);
      }
      if r.seqNo > q {
        IncreasingSnocBack(ys, r, q);
        Associate(xs, ys, [r]);
        ys := ys + [r];
      } else {
        if ys != [] {
          IncreasingPairs(ys, q, |ys| - 1, |ys| - 1);
        }
        assert ys == [] && xs == init;
        xs := rs;
      }
    }
  }

  lemma LastOfConcat(xs: seq<Record>, ys: seq<Record>)
    requires ys != []
    ensures xs + ys != [] && (xs + ys)[|xs + ys| - 1] == ys[|ys| - 1]
  {
  }

  lemma IncreasingSnoc(rs: seq<Record>, floor: nat)
    requires rs != [] && Increasing(rs, floor)
    ensures Increasing(rs[..|rs|-1], floor) && LastSeq(rs[..|rs|-1], floor) < rs[|rs|-1].seqNo
  {
  }

  lemma IncreasingSnocBack(ys: seq<Record>, r: Record, floor: nat)
    requires Increasing(ys, floor) && LastSeq(ys, floor) < r.seqNo
    ensures Increasing(ys + [r], floor)
  {
    assert (ys + [r])[..|ys|] == ys;
  }

  lemma {:induction false} IncreasingPrefix(rs: seq<Record>, floor: nat, n: nat)
    requires Increasing(rs, floor) && n <= |rs|
    ensures Increasing(rs[..n], floor) && LastSeq(rs[..n], 0) <= LastSeq(rs, 0)
  {
    if n == |rs| {
      assert rs[..n] == rs;
    } else {
      IncreasingPrefix(rs[..|rs|-1], floor, n);
      assert rs[..|rs|-1][..n] == rs[..n];
    }
  }

  /** A full replay sees every record since the commit exactly when the ring
      has not yet overwritten one of them. */
  lemma ReplayComplete(log: seq<Record>, cap: nat, floor: nat)
    requires Increasing(log, 0) && cap > 0
    ensures After(Newest(log, cap), floor) == After(log, floor) <==> |After(log, floor)| <= cap
  {
    if |log| <= cap {
      AfterShorter(log, floor);
    } else {
      var n := |log| - cap;
      assert log == log[..n] + log[n..];
      AfterConcat(log[..n], log[n..], floor);
      AfterShorter(log[n..], floor);
      if |After(log, floor)| <= cap {
        LostIsOld(log, n, floor);
      }
    }
  }

  /** Reading past a floor and overwriting commute. */
  lemma NewestAfter(log: seq<Record>, cap: nat, floor: nat)
    requires Increasing(log, 0)
    ensures After(Newest(log, cap), floor) == Newest(After(log, floor), cap)
  {
    hide Increasing, After;
    var xs, ys := AfterSplits(log, 0, floor);
    if |ys| >= cap {
      assert Newest(log, cap) == Newest(ys, cap) == ys[|ys| - cap..];
      AboveAll(ys, floor, |ys| - cap);
    } else {
      ReplayComplete(log, cap, floor);
    }
  }

  lemma {:induction false} AboveAll(ys: seq<Record>, q: nat, k: nat)
    requires Increasing(ys, q) && k <= |ys|
    ensures After(ys[k..], q) == ys[k..]
  {
    if k == |ys| {
      assert ys[k..] == [];
      AfterNone(q);
    } else {
      hide After, Increasing;
      var init, r := ys[..|ys|-1], ys[|ys|-1];
      IncreasingSnoc(ys, q);
      AboveAll(init, q, k);
      IncreasingPairs(ys, q, |ys| - 1, |ys| - 1);
      assert ys[k..] == init[k..] + [r];
      AfterSnoc(init[k..], r, q);
    }
  }

  lemma AfterNone(q: nat)
    ensures After([], q) == []
  {
  }

  lemma LostIsOld(log: seq<Record>, n: nat, floor: nat)
    requires Increasing(log, 0) && n <= |log| - |After(log, floor)|
    ensures After(log[..n], floor) == []
  {
    var xs, ys := AfterSplits(log, 0, floor);
    IncreasingPrefix(xs, 0, n);
    assert log[..n] == xs[..n];
    AfterAll(xs[..n], 0, floor);
  }

  lemma {:induction false} AfterShorter(rs: seq<Record>, q: nat)
    ensures |After(rs, q)| <= |rs|
  {
    if rs != [] {
      AfterShorter(rs[..|rs|-1], q);
    }
  }
}
