// The idiom `for i, x := range s { if match(x) { s = append(s[:i], s[i+1:]...) } }`.
//
// Go evaluates `s` once for the range, so the loop runs over the ORIGINAL length and reads the
// shared backing array, while each match shifts that array left and shortens `s` by one. The
// repository removes volumes, volume mounts, storages and URLs this way.

module GoSlice {
  import opened Lists

  /** `Kept(items)` is the slice after the loop; `Panic` is a slice bound out of range. */
  datatype Outcome<+T> = Kept(items: seq<T>) | Panic

  /** The backing array after `append(s[:i], s[i+1:]...)` on a slice of length `len`. */
  function Shift<T>(backing: seq<T>, len: nat, i: nat): (r: seq<T>)
    requires i < len <= |backing|
    ensures |r| == |backing|
    ensures forall k :: 0 <= k < |r| ==> r[k] == if i <= k < len - 1 then backing[k + 1] else backing[k]
  {
    backing[..i] + backing[i + 1..len] + backing[len - 1..]
  }

  /** The loop from index `i` on: `len` is the current length of the slice, `|backing|` the length
      the range was evaluated with. */
  function RangeRemoveFrom<T>(backing: seq<T>, len: nat, i: nat, hit: T -> bool): Outcome<T>
    requires len <= |backing| && i <= |backing|
    decreases |backing| - i
  {
    if i == |backing| then Kept(backing[..len])
    else if !hit(backing[i]) then RangeRemoveFrom(backing, len, i + 1, hit)
    else if i < len then RangeRemoveFrom(Shift(backing, len, i), len - 1, i + 1, hit)
    else Panic
  }

  function RangeRemove<T>(s: seq<T>, hit: T -> bool): Outcome<T> {
    RangeRemoveFrom(s, |s|, 0, hit)
  }

  /** What the caller must know for the loop to be a filter: no two neighbours match, and the last
      element matches only if it is the only match. */
  ghost predicate RangeSafe<T>(s: seq<T>, hit: T -> bool) {
    && (forall k :: 0 < k < |s| ==> !(hit(s[k - 1]) && hit(s[k])))
    && (|s| > 0 && hit(s[|s| - 1]) ==> forall k :: 0 <= k < |s| - 1 ==> !hit(s[k]))
  }

  /** From the last live element on, the backing array repeats its last element. */
  ghost predicate StaleTail<T>(backing: seq<T>, len: nat) {
    len <= |backing| && forall k :: 0 <= k < |backing| && len - 1 <= k ==> backing[k] == backing[|backing| - 1]
  }

  /** RangeSafe for a loop already in progress. */
  ghost predicate SafeFrom<T>(backing: seq<T>, len: nat, i: nat, hit: T -> bool)
    requires i <= len <= |backing|
  {
    && (forall k :: i < k < len ==> !(hit(backing[k - 1]) && hit(backing[k])))
    && (i < |backing| && hit(backing[|backing| - 1]) ==>
          len == |backing| && forall k :: i <= k < |backing| - 1 ==> !hit(backing[k]))
  }

  /** What lies before the index is never touched again. */
  lemma {:induction false} PrefixKept<T>(backing: seq<T>, len: nat, i: nat, hit: T -> bool)
    requires i <= len <= |backing|
    requires RangeRemoveFrom(backing, len, i, hit).Kept?
    ensures i <= |RangeRemoveFrom(backing, len, i, hit).items|
    ensures RangeRemoveFrom(backing, len, i, hit).items[..i] == backing[..i]
    decreases |backing| - i
  {
    if i < |backing| {
      if !hit(backing[i]) {
        if i < len {
          PrefixKept(backing, len, i + 1, hit);
        } else {
          PastTheEnd(backing, len, i + 1, hit);
        }
      } else if i < len {
        var next := Shift(backing, len, i);
        if i + 1 <= len - 1 {
          PrefixKept(next, len - 1, i + 1, hit);
          var items := RangeRemoveFrom(next, len - 1, i + 1, hit).items;
          assert items[..i] == items[..i + 1][..i] == next[..i + 1][..i] == backing[..i];
        } else {
          PastTheEnd(next, len - 1, i + 1, hit);
        }
      }
    }
  }

  /** Beyond the live part the loop either finishes unchanged or panics. */
  lemma {:induction false} PastTheEnd<T>(backing: seq<T>, len: nat, i: nat, hit: T -> bool)
    requires len <= i <= |backing|
    ensures RangeRemoveFrom(backing, len, i, hit) ==
            if forall k :: i <= k < |backing| ==> !hit(backing[k]) then Kept(backing[..len]) else Panic
    decreases |backing| - i
  {
    if i < |backing| {
      PastTheEnd(backing, len, i + 1, hit);
    }
  }

  lemma {:induction false} FilterIffFrom<T>(backing: seq<T>, len: nat, i: nat, hit: T -> bool)
    requires i <= len && StaleTail(backing, len)
    ensures RangeRemoveFrom(backing, len, i, hit) == Kept(backing[..i] + Without(backing[i..len], hit))
            <==> SafeFrom(backing, len, i, hit)
    decreases |backing| - i
  {
    var goal := backing[..i] + Without(backing[i..len], hit);
    if i == |backing| {
    } else if i == len {
      PastTheEnd(backing, len, i, hit);
      assert goal == backing[..len];
    } else if !hit(backing[i]) {
      FilterIffFrom(backing, len, i + 1, hit);
      StepOver(backing, len, i, hit);
    } else {
      RemovalStep(backing, len, i, hit);
    }
  }

  lemma StepOver<T>(backing: seq<T>, len: nat, i: nat, hit: T -> bool)
    requires i < len <= |backing| && !hit(backing[i])
    ensures backing[..i] + Without(backing[i..len], hit)
         == backing[..i + 1] + Without(backing[i + 1..len], hit)
    ensures SafeFrom(backing, len, i, hit) <==> SafeFrom(backing, len, i + 1, hit)
  {
    WithoutStep(backing, i, len, hit);
    assert backing[..i + 1] == backing[..i] + [backing[i]];
    if SafeFrom(backing, len, i + 1, hit) {
      forall k | i < k < len ensures !(hit(backing[k - 1]) && hit(backing[k])) {
      }
    }
  }

  lemma {:induction false} RemovalStep<T>(backing: seq<T>, len: nat, i: nat, hit: T -> bool)
    requires i < len && StaleTail(backing, len) && hit(backing[i])
    ensures RangeRemoveFrom(backing, len, i, hit) == Kept(backing[..i] + Without(backing[i..len], hit))
            <==> SafeFrom(backing, len, i, hit)
    decreases |backing| - i, 0
  {
    var next := Shift(backing, len, i);
    if i + 1 == len {
      WithoutStep(backing, i, len, hit);
      PastTheEnd(next, len - 1, i + 1, hit);
      assert backing[..i] == next[..len - 1];
    } else if hit(backing[i + 1]) {
      SurvivorShows(backing, len, i, hit);
    } else {
      assert StaleTail(next, len - 1);
      FilterIffFrom(next, len - 1, i + 1, hit);
      SameGoal(backing, len, i, hit);
      SafeShift(backing, len, i, hit);
    }
  }

  lemma SurvivorShows<T>(backing: seq<T>, len: nat, i: nat, hit: T -> bool)
    requires i + 1 < len <= |backing| && hit(backing[i]) && hit(backing[i + 1])
    ensures RangeRemoveFrom(backing, len, i, hit) != Kept(backing[..i] + Without(backing[i..len], hit))
  {
    var next := Shift(backing, len, i);
    var rest := Without(backing[i..len], hit);
    if RangeRemoveFrom(backing, len, i, hit).Kept? {
      PrefixKept(next, len - 1, i + 1, hit);
      var items := RangeRemoveFrom(backing, len, i, hit).items;
      assert items[..i + 1][i] == items[i] == next[i] == backing[i + 1];
      if |rest| > 0 {
        WithoutMembers(backing[i..len], hit);
        assert rest[0] in rest;
        assert (backing[..i] + rest)[i] == rest[0];
      }
    }
  }

  lemma SameGoal<T>(backing: seq<T>, len: nat, i: nat, hit: T -> bool)
    requires i + 1 < len <= |backing| && hit(backing[i]) && !hit(backing[i + 1])
    ensures backing[..i] + Without(backing[i..len], hit)
         == Shift(backing, len, i)[..i + 1] + Without(Shift(backing, len, i)[i + 1..len - 1], hit)
  {
    var next := Shift(backing, len, i);
    assert next[i + 1..len - 1] == backing[i + 2..len];
    assert next[..i + 1] == backing[..i] + [backing[i + 1]];
    var rest := Without(backing[i + 2..len], hit);
    WithoutStep(backing, i, len, hit);
    WithoutStep(backing, i + 1, len, hit);
    assert backing[..i] + ([backing[i + 1]] + rest) == (backing[..i] + [backing[i + 1]]) + rest;
  }

  /** Removing a match whose right neighbour does not match leaves the same question to answer. */
  lemma SafeShift<T>(backing: seq<T>, len: nat, i: nat, hit: T -> bool)
    requires i + 1 < len && StaleTail(backing, len) && hit(backing[i]) && !hit(backing[i + 1])
    ensures SafeFrom(Shift(backing, len, i), len - 1, i + 1, hit) <==> SafeFrom(backing, len, i, hit)
  {
    var next := Shift(backing, len, i);
    if SafeFrom(next, len - 1, i + 1, hit) {
      forall k | i < k < len ensures !(hit(backing[k - 1]) && hit(backing[k])) {
        if k > i + 2 {
          assert !(hit(next[k - 2]) && hit(next[k - 1]));
        }
      }
    }
    if SafeFrom(backing, len, i, hit) {
      forall k | i + 1 < k < len - 1 ensures !(hit(next[k - 1]) && hit(next[k])) {
        assert !(hit(backing[k]) && hit(backing[k + 1]));
      }
    }
  }

  /** THE EXACT CONDITION. The removal loop is a filter if and only if the input is range-safe;
      otherwise it panics or leaves a matching element behind. */
  lemma RangeRemoveIsFilterIff<T>(s: seq<T>, hit: T -> bool)
    ensures RangeRemove(s, hit) == Kept(Without(s, hit)) <==> RangeSafe(s, hit)
  {
    FilterIffFrom(s, |s|, 0, hit);
    assert s[0..|s|] == s;
  }

  /** The last element matches and so does an earlier one. */
  ghost predicate LastAndEarlier<T>(s: seq<T>, hit: T -> bool) {
    |s| > 0 && hit(s[|s| - 1]) && exists k :: 0 <= k < |s| - 1 && hit(s[k])
  }

  lemma {:induction false} PanicIffFrom<T>(backing: seq<T>, len: nat, i: nat, hit: T -> bool)
    requires i <= len && StaleTail(backing, len)
    ensures RangeRemoveFrom(backing, len, i, hit).Panic?
            <==> i < |backing| && hit(backing[|backing| - 1]) &&
                 (len < |backing| || exists k :: i <= k < |backing| - 1 && hit(backing[k]))
    decreases |backing| - i
  {
    if i < |backing| {
      if i == len {
        PastTheEnd(backing, len, i, hit);
      } else if !hit(backing[i]) {
        PanicIffFrom(backing, len, i + 1, hit);
      } else {
        var next := Shift(backing, len, i);
        if i + 1 == len {
          PastTheEnd(next, len - 1, i + 1, hit);
        } else {
          assert StaleTail(next, len - 1);
          PanicIffFrom(next, len - 1, i + 1, hit);
        }
      }
    }
  }

  /** The loop panics if and only if the last element matches and an earlier one does too. */
  lemma RangeRemovePanicsIff<T>(s: seq<T>, hit: T -> bool)
    ensures RangeRemove(s, hit).Panic? <==> LastAndEarlier(s, hit)
  {
    PanicIffFrom(s, |s|, 0, hit);
  }

  lemma LastAndEarlierPrefix<T>(base: seq<T>, s: seq<T>, hit: T -> bool)
    requires forall x :: x in base ==> !hit(x)
    ensures LastAndEarlier(base + s, hit) <==> LastAndEarlier(s, hit)
  {
    var all := base + s;
    assert forall k :: 0 <= k < |s| ==> all[|base| + k] == s[k];
    assert forall k :: 0 <= k < |base| ==> all[k] == base[k] && !hit(all[k]);
    if LastAndEarlier(all, hit) {
      var k :| 0 <= k < |all| - 1 && hit(all[k]);
      assert k >= |base| && hit(s[k - |base|]);
    }
    if LastAndEarlier(s, hit) {
      var k :| 0 <= k < |s| - 1 && hit(s[k]);
      assert hit(all[|base| + k]);
    }
  }

  /** With at most one match the loop is a filter. */
  lemma RangeRemoveAtMostOne<T>(s: seq<T>, hit: T -> bool)
    requires forall i, j :: 0 <= i < j < |s| ==> !(hit(s[i]) && hit(s[j]))
    ensures RangeRemove(s, hit) == Kept(Without(s, hit))
  {
    RangeRemoveIsFilterIff(s, hit);
  }

  /** A prefix without matches neither helps nor hurts. */
  lemma RangeSafePrefix<T>(base: seq<T>, s: seq<T>, hit: T -> bool)
    requires forall x :: x in base ==> !hit(x)
    ensures RangeSafe(base + s, hit) <==> RangeSafe(s, hit)
  {
    var all := base + s;
    assert forall k :: 0 <= k < |s| ==> all[|base| + k] == s[k];
    assert forall k :: 0 <= k < |base| ==> all[k] == base[k] && !hit(all[k]);
    if RangeSafe(all, hit) {
      forall k | 0 < k < |s| ensures !(hit(s[k - 1]) && hit(s[k])) {
        assert !(hit(all[|base| + k - 1]) && hit(all[|base| + k]));
      }
      if |s| > 0 && hit(s[|s| - 1]) {
        forall k | 0 <= k < |s| - 1 ensures !hit(s[k]) {
          assert !hit(all[|base| + k]);
        }
      }
    }
    if RangeSafe(s, hit) {
      forall k | 0 < k < |all| ensures !(hit(all[k - 1]) && hit(all[k])) {
        if k > |base| {
          assert !(hit(s[k - 1 - |base|]) && hit(s[k - |base|]));
        }
      }
    }
  }

  /** Whatever the input, elements that do not match are never lost or reordered. */
  lemma {:induction false} OthersKeptFrom<T>(backing: seq<T>, len: nat, i: nat, hit: T -> bool)
    requires len <= |backing| && i <= |backing|
    requires RangeRemoveFrom(backing, len, i, hit).Kept?
    ensures Without(RangeRemoveFrom(backing, len, i, hit).items, hit) == Without(backing[..len], hit)
    decreases |backing| - i
  {
    if i == |backing| {
    } else if !hit(backing[i]) {
      OthersKeptFrom(backing, len, i + 1, hit);
    } else {
      var next := Shift(backing, len, i);
      OthersKeptFrom(next, len - 1, i + 1, hit);
      assert next[..len - 1] == backing[..i] + backing[i + 1..len];
      assert backing[..len] == backing[..i] + [backing[i]] + backing[i + 1..len];
      WithoutConcat(backing[..i], backing[i + 1..len], hit);
      WithoutConcat(backing[..i], [backing[i]], hit);
      WithoutConcat(backing[..i] + [backing[i]], backing[i + 1..len], hit);
    }
  }

  /** If the loop finishes without being a filter, a matching element is still there. */
  lemma UnsafeLeavesAMatch<T>(s: seq<T>, hit: T -> bool)
    requires RangeRemove(s, hit).Kept? && !RangeSafe(s, hit)
    ensures exists x :: x in RangeRemove(s, hit).items && hit(x)
  {
    RangeRemoveIsFilterIff(s, hit);
    OthersKeptFrom(s, |s|, 0, hit);
    assert s[..|s|] == s;
    var items := RangeRemove(s, hit).items;
    if forall x :: x in items ==> !hit(x) {
      WithoutNothing(items, hit);
    }
  }

  /** Elements before the first match are passed over. */
  lemma {:induction false} PassOver<T>(s: seq<T>, i: nat, j: nat, hit: T -> bool)
    requires i <= j <= |s| && forall k :: i <= k < j ==> !hit(s[k])
    ensures RangeRemoveFrom(s, |s|, i, hit) == RangeRemoveFrom(s, |s|, j, hit)
    decreases j - i
  {
    if i < j {
      PassOver(s, i + 1, j, hit);
    }
  }

  lemma FirstMatch<T>(s: seq<T>, hit: T -> bool, k: nat) returns (i: nat)
    requires k < |s| && hit(s[k])
    ensures i <= k && hit(s[i]) && forall j :: 0 <= j < i ==> !hit(s[j])
  {
    i := 0;
    while !hit(s[i])
      invariant i <= k && forall j :: 0 <= j < i ==> !hit(s[j])
      decreases k - i
    {
      i := i + 1;
    }
  }

  /** A match that is not the last element makes room for its neighbour, for good. */
  lemma MatchMakesRoom<T>(s: seq<T>, i: nat, hit: T -> bool)
    requires i + 1 < |s| && hit(s[i]) && (forall k :: 0 <= k < i ==> !hit(s[k])) && RangeRemove(s, hit).Kept?
    ensures i < |RangeRemove(s, hit).items| && RangeRemove(s, hit).items[i] == s[i + 1]
  {
    PassOver(s, 0, i, hit);
    var next := Shift(s, |s|, i);
    PrefixKept(next, |s| - 1, i + 1, hit);
    var items := RangeRemove(s, hit).items;
    assert items[i] == items[..i + 1][i] == next[i];
  }

  /** Only the last element matches, or none does. */
  ghost predicate AtMostTheLast<T>(s: seq<T>, hit: T -> bool) {
    forall k :: 0 <= k < |s| - 1 ==> !hit(s[k])
  }

  /** Whatever is appended after the loop, a list of distinct elements is back as it was only if none but
      the last matched. */
  lemma UndoneOnlyAtTheEnd<T>(s: seq<T>, hit: T -> bool, added: seq<T>)
    requires Distinct(s) && RangeRemove(s, hit).Kept? && RangeRemove(s, hit).items + added == s
    ensures AtMostTheLast(s, hit)
  {
    if k :| 0 <= k < |s| - 1 && hit(s[k]) {
      var i := FirstMatch(s, hit, k);
      var items := RangeRemove(s, hit).items;
      assert s[i] != s[i + 1];
      assert i < |items| ==> (items + added)[i] == items[i];
      MatchMakesRoom(s, i, hit);
      assert false;
    }
  }

  /** Two matching neighbours: the second survives. */
  lemma AdjacentMatchSurvives()
    ensures RangeRemove([1, 1, 0], (x: int) => x == 1) == Kept([1, 0])
  {
    var hit := (x: int) => x == 1;
    var s := [1, 1, 0];
    assert Shift(s, 3, 0) == [1, 0, 0];
    assert RangeRemoveFrom([1, 0, 0], 2, 1, hit) == Kept([1, 0, 0][..2]);
    assert RangeRemove(s, hit) == RangeRemoveFrom([1, 0, 0], 2, 1, hit);
    assert [1, 0, 0][..2] == [1, 0];
  }

  /** Two matches, one of them last: the loop reads the leftover copy and panics. */
  lemma TrailingMatchPanics()
    ensures RangeRemove([1, 0, 1], (x: int) => x == 1) == Panic
  {
    var hit := (x: int) => x == 1;
    var s := [1, 0, 1];
    assert Shift(s, 3, 0) == [0, 1, 1];
    assert Shift([0, 1, 1], 2, 1) == [0, 1, 1];
    assert RangeRemove(s, hit) == RangeRemoveFrom([0, 1, 1], 2, 1, hit);
    assert RangeRemoveFrom([0, 1, 1], 2, 1, hit) == RangeRemoveFrom([0, 1, 1], 1, 2, hit);
  }

  /** The loop itself, in place on the backing array. `len` is the final slice header. */
  method RemoveInRange<T>(a: array<T>, hit: T -> bool) returns (len: nat, ok: bool)
    modifies a
    ensures len <= a.Length
    ensures RangeRemove(old(a[..]), hit) == if ok then Kept(a[..len]) else Panic
  {
    len, ok := a.Length, true;
    var i := 0;
    while i < a.Length
      invariant 0 <= i <= a.Length && len <= a.Length
      invariant RangeRemove(old(a[..]), hit) == RangeRemoveFrom(a[..], len, i, hit)
    {
      assert a[..][i] == a[i];
      if hit(a[i]) {
        if i >= len {
          ok := false;
          return;
        }
        ShiftLeft(a, len, i);
        len := len - 1;
      }
      i := i + 1;
    }
    assert a[..][..len] == a[..len];
  }

  /** `append(a[:i], a[i+1:len]...)`: the copy that the append performs inside the same array. */
  method ShiftLeft<T>(a: array<T>, len: nat, i: nat)
    requires i < len <= a.Length
    modifies a
    ensures a[..] == Shift(old(a[..]), len, i)
  {
    var j := i;
    while j + 1 < len
      invariant i <= j < len
      invariant forall k :: 0 <= k < a.Length ==> a[k] == old(a[if i <= k < j then k + 1 else k])
    {
      a[j] := a[j + 1];
      j := j + 1;
    }
  }

  /** The loop on a slice that no one else aliases. */
  method RemoveFromSlice<T>(s: seq<T>, hit: T -> bool) returns (r: Outcome<T>)
    ensures r == RangeRemove(s, hit)
  {
    var a := new T[|s|](i requires 0 <= i < |s| => s[i]);
    assert a[..] == s;
    var len, ok := RemoveInRange(a, hit);
    r := if ok then Kept(a[..len]) else Panic;
  }
}
