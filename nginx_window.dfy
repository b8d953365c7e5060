/**
 * The rolling unique-session history of the nginx collector, `last_unique_sessions`: a list of
 * per-cycle session sets, pre-filled with empty sets, from which each cycle removes the oldest
 * entry (`pop(0)`) and to which it appends its own set. The 1-, 5- and 15-cycle figures are the
 * sizes of the unions of the last 1, 5 and 15 entries.
 */
module NginxWindow {

  /** The number of empty sets the history starts with. */
  const HistoryLength: nat := 15

  /** `n` empty sets. */
  function Empties(n: nat): (h: seq<set<string>>)
    ensures |h| == n && forall i :: 0 <= i < n ==> h[i] == {}
  {
    if n == 0 then [] else Empties(n - 1) + [{}]
  }

  /** The history as the constructor leaves it. */
  function InitialHistory(): (h: seq<set<string>>)
    ensures |h| == HistoryLength && forall i :: 0 <= i < |h| ==> h[i] == {}
  {
    Empties(HistoryLength)
  }

  /** `set.union(*hs)`: everything that is in some entry. */
  function UnionAll(hs: seq<set<string>>): set<string>
  {
    if hs == [] then {} else UnionAll(hs[..|hs| - 1]) + hs[|hs| - 1]
  }

  /** A session is in the union exactly when some entry holds it. */
  lemma {:induction false} UnionAllMembers(hs: seq<set<string>>)
    ensures forall x :: x in UnionAll(hs) <==> exists i :: 0 <= i < |hs| && x in hs[i]
  {
    if hs != [] {
      UnionAllMembers(hs[..|hs| - 1]);
      assert forall i :: 0 <= i < |hs| - 1 ==> hs[..|hs| - 1][i] == hs[i];
    }
  }

  /**
   * `set.union(*hs[-k:])`: the union of the last `k` entries, or of all of them while fewer than
   * `k` exist. `set.union` needs at least one set, hence the non-empty history. The collector
   * asks only for 1, 5 and 15; for `k == 0` this is the empty set, whereas Python's `hs[-0:]`
   * would be the whole list.
   */
  function Window(hs: seq<set<string>>, k: nat): set<string>
    requires |hs| > 0
  {
    UnionAll(hs[|hs| - (if k < |hs| then k else |hs|)..])
  }

  /** The one-cycle window is the latest entry. */
  lemma WindowOfOne(hs: seq<set<string>>)
    requires |hs| > 0
    ensures Window(hs, 1) == hs[|hs| - 1]
  {
    var last := hs[|hs| - 1..];
    assert last == [hs[|hs| - 1]];
    assert last[..0] == [];
    assert Window(hs, 1) == UnionAll(last);
    assert UnionAll(last) == UnionAll(last[..0]) + last[0];
  }

  lemma SubsetCardinality(a: set<string>, b: set<string>)
    requires a <= b
    ensures |a| <= |b|
  {
    assert b == a + (b - a);
  }

  /** A longer window holds every session of a shorter one, so its count is never smaller. */
  lemma WindowMonotone(hs: seq<set<string>>, j: nat, k: nat)
    requires |hs| > 0 && j <= k
    ensures Window(hs, j) <= Window(hs, k)
    ensures |Window(hs, j)| <= |Window(hs, k)|
  {
    var n := |hs|;
    var jj, kk := (if j < n then j else n), (if k < n then k else n);
    var sj, sk := hs[n - jj..], hs[n - kk..];
    UnionAllMembers(sj);
    UnionAllMembers(sk);
    forall x | x in Window(hs, j) ensures x in Window(hs, k) {
      var i :| 0 <= i < |sj| && x in sj[i];
      assert sk[i + (kk - jj)] == sj[i];
    }
    SubsetCardinality(Window(hs, j), Window(hs, k));
  }

  /** One successful cycle: the oldest entry leaves, this cycle's set joins. */
  function Advance(hs: seq<set<string>>, cycle: set<string>): seq<set<string>>
    requires |hs| > 0
  {
    hs[1..] + [cycle]
  }

  /** A run of successful cycles. */
  function AdvanceAll(hs: seq<set<string>>, cycles: seq<set<string>>): (r: seq<set<string>>)
    requires |hs| > 0
    ensures |r| == |hs|
    decreases |cycles|
  {
    if cycles == [] then hs else AdvanceAll(Advance(hs, cycles[0]), cycles[1..])
  }

  /**
   * Eviction is first in, first out: after any run of successful cycles the history is the last
   * `|hs|` entries of the old history followed by the new sets, so its length never changes.
   */
  lemma {:induction false} AdvanceAllIsFifo(hs: seq<set<string>>, cycles: seq<set<string>>)
    requires |hs| > 0
    ensures AdvanceAll(hs, cycles) == (hs + cycles)[|cycles|..]
    ensures |AdvanceAll(hs, cycles)| == |hs|
    decreases |cycles|
  {
    if cycles != [] {
      AdvanceAllIsFifo(Advance(hs, cycles[0]), cycles[1..]);
      assert (Advance(hs, cycles[0]) + cycles[1..])[|cycles| - 1..] == (hs + cycles)[|cycles|..];
    }
  }

  lemma {:induction false} UnionAllEmpties(n: nat, cycles: seq<set<string>>)
    ensures UnionAll(Empties(n) + cycles) == UnionAll(cycles)
  {
    var l := Empties(n) + cycles;
    UnionAllMembers(l);
    UnionAllMembers(cycles);
    forall x | x in UnionAll(l) ensures x in UnionAll(cycles) {
      var i :| 0 <= i < |l| && x in l[i];
      assert l[i] == cycles[i - n];
    }
    forall x | x in UnionAll(cycles) ensures x in UnionAll(l) {
      var i :| 0 <= i < |cycles| && x in cycles[i];
      assert l[i + n] == cycles[i];
    }
  }

  /** Over a history padded with empty sets, a window sees only the sets after the padding. */
  lemma {:induction false} WindowOverPadding(m: nat, cycles: seq<set<string>>, k: nat)
    requires |cycles| > 0
    ensures Window(Empties(m) + cycles, k)
            == UnionAll(cycles[|cycles| - (if k < |cycles| then k else |cycles|)..])
  {
    var h := Empties(m) + cycles;
    var n := |h|;
    var c := if k < n then k else n;
    if c <= |cycles| {
      assert h[n - c..] == cycles[|cycles| - c..];
    } else {
      var e := c - |cycles|;
      assert Empties(m)[m - e..] == Empties(e);
      assert h[n - c..] == Empties(m)[m - e..] + cycles;
      UnionAllEmpties(e, cycles);
      assert cycles[|cycles| - |cycles|..] == cycles;
    }
  }

  /**
   * Warm-up: while fewer than `HistoryLength` cycles have run since start, the `k`-cycle window is
   * the union of the last `k` cycles that actually ran, or of all of them when fewer than `k` ran;
   * the empty sets the history started with add nothing.
   */
  lemma {:induction false} WindowDuringWarmUp(cycles: seq<set<string>>, k: nat)
    requires 0 < |cycles| <= HistoryLength
    ensures Window(AdvanceAll(InitialHistory(), cycles), k)
            == UnionAll(cycles[|cycles| - (if k < |cycles| then k else |cycles|)..])
  {
    AdvanceAllIsFifo(InitialHistory(), cycles);
    var m := HistoryLength - |cycles|;
    assert (InitialHistory() + cycles)[|cycles|..] == Empties(m) + cycles;
    WindowOverPadding(m, cycles, k);
  }
}
