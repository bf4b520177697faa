// Sequence vocabulary shared by the models: filtering, distinctness, projections.

module Lists {

  datatype Option<+T> = None | Some(value: T)

  /** The elements of `s` that do not satisfy `hit`, in order. */
  function Without<T>(s: seq<T>, hit: T -> bool): (r: seq<T>)
    ensures |r| <= |s|
  {
    if s == [] then [] else (if hit(s[0]) then [] else [s[0]]) + Without(s[1..], hit)
  }

  lemma {:induction false} WithoutMembers<T>(s: seq<T>, hit: T -> bool)
    ensures forall x :: x in Without(s, hit) ==> x in s && !hit(x)
    ensures forall x :: x in s && !hit(x) ==> x in Without(s, hit)
  {
    if s != [] {
      WithoutMembers(s[1..], hit);
      assert s == [s[0]] + s[1..];
    }
  }

  lemma WithoutStep<T>(s: seq<T>, lo: nat, hi: nat, hit: T -> bool)
    requires lo < hi <= |s|
    ensures Without(s[lo..hi], hit) == (if hit(s[lo]) then [] else [s[lo]]) + Without(s[lo + 1..hi], hit)
  {
    assert s[lo..hi][1..] == s[lo + 1..hi];
  }

  function Map<A, B>(f: A -> B, s: seq<A>): (r: seq<B>)
    ensures |r| == |s|
    ensures forall i :: 0 <= i < |s| ==> r[i] == f(s[i])
  {
    seq(|s|, i requires 0 <= i < |s| => f(s[i]))
  }

  ghost predicate Distinct<T>(s: seq<T>) {
    forall i, j :: 0 <= i < j < |s| ==> s[i] != s[j]
  }

  lemma ConcatDistinctIff<T>(s: seq<T>, t: seq<T>)
    ensures Distinct(s + t) <==> Distinct(s) && Distinct(t) && forall x :: x in s ==> x !in t
  {
    var all := s + t;
    if Distinct(all) {
      forall i, j | 0 <= i < j < |s| ensures s[i] != s[j] {
        assert all[i] != all[j];
      }
      forall i, j | 0 <= i < j < |t| ensures t[i] != t[j] {
        assert all[|s| + i] != all[|s| + j];
      }
      forall i, j | 0 <= i < |s| && 0 <= j < |t| ensures s[i] != t[j] {
        assert all[i] != all[|s| + j];
      }
    }
    if Distinct(s) && Distinct(t) && forall x :: x in s ==> x !in t {
      forall i, j | 0 <= i < j < |all| ensures all[i] != all[j] {
        if i < |s| <= j {
          assert all[i] in s && all[j] in t;
        }
      }
    }
  }

  lemma WithoutCons<T>(x: T, t: seq<T>, hit: T -> bool)
    ensures Without([x] + t, hit) == (if hit(x) then [] else [x]) + Without(t, hit)
  {
    assert ([x] + t)[1..] == t;
  }

  /** Filtering twice is filtering by either predicate. */
  lemma {:induction false} WithoutTwice<T>(s: seq<T>, p: T -> bool, q: T -> bool, both: T -> bool)
    requires forall x :: x in s ==> (both(x) <==> p(x) || q(x))
    ensures Without(Without(s, p), q) == Without(s, both)
  {
    if s != [] {
      WithoutTwice(s[1..], p, q, both);
      var rest := Without(s[1..], p);
      if p(s[0]) {
        assert Without(s, p) == rest && Without(s, both) == Without(s[1..], both);
      } else {
        WithoutCons(s[0], rest, q);
      }
    }
  }

  lemma {:induction false} WithoutConcat<T>(s: seq<T>, t: seq<T>, hit: T -> bool)
    ensures Without(s + t, hit) == Without(s, hit) + Without(t, hit)
  {
    if s == [] {
      assert s + t == t;
    } else {
      assert (s + t)[1..] == s[1..] + t;
      WithoutConcat(s[1..], t, hit);
    }
  }

  lemma {:induction false} WithoutNothing<T>(s: seq<T>, hit: T -> bool)
    requires forall x :: x in s ==> !hit(x)
    ensures Without(s, hit) == s
  {
    if s != [] {
      WithoutNothing(s[1..], hit);
    }
  }

  lemma {:induction false} WithoutEverything<T>(s: seq<T>, hit: T -> bool)
    requires forall x :: x in s ==> hit(x)
    ensures Without(s, hit) == []
  {
    if s != [] {
      WithoutEverything(s[1..], hit);
    }
  }

  /** Filtering depends only on how the predicate answers on the elements at hand. */
  lemma {:induction false} WithoutAgree<T>(s: seq<T>, p: T -> bool, q: T -> bool)
    requires forall x :: x in s ==> p(x) == q(x)
    ensures Without(s, p) == Without(s, q)
  {
    if s != [] {
      WithoutAgree(s[1..], p, q);
    }
  }

  /** Filtering commutes with a projection that carries the predicate along. */
  lemma {:induction false} WithoutMap<A, B>(f: A -> B, s: seq<A>, p: A -> bool, q: B -> bool)
    requires forall x :: x in s ==> p(x) == q(f(x))
    ensures Without(Map(f, s), q) == Map(f, Without(s, p))
  {
    if s != [] {
      assert Map(f, s)[1..] == Map(f, s[1..]);
      WithoutMap(f, s[1..], p, q);
      assert Map(f, [s[0]] + Without(s[1..], p)) == [f(s[0])] + Map(f, Without(s[1..], p));
    }
  }

  lemma {:induction false} WithoutDistinct<A, B>(f: A -> B, s: seq<A>, p: A -> bool)
    requires Distinct(Map(f, s))
    ensures Distinct(Map(f, Without(s, p)))
  {
    if s != [] {
      var rest := Without(s[1..], p);
      assert Map(f, s)[1..] == Map(f, s[1..]);
      WithoutDistinct(f, s[1..], p);
      WithoutMembers(s[1..], p);
      forall x | x in rest ensures f(x) != f(s[0]) {
        var k :| 0 <= k < |s[1..]| && s[1..][k] == x;
        assert Map(f, s)[k + 1] == f(x);
      }
    }
  }

  lemma MapConcat<A, B>(f: A -> B, s: seq<A>, t: seq<A>)
    ensures Map(f, s + t) == Map(f, s) + Map(f, t)
  {
  }

  /** Dropping one element that would be filtered out anyway changes nothing. */
  lemma {:induction false} WithoutDrop<T>(s: seq<T>, k: nat, hit: T -> bool)
    requires k < |s| && hit(s[k])
    ensures Without(s[..k] + s[k + 1..], hit) == Without(s, hit)
  {
    if k == 0 {
      assert s[..0] + s[1..] == s[1..];
    } else {
      var t, rest := s[..k] + s[k + 1..], s[1..];
      assert t[1..] == rest[..k - 1] + rest[k..];
      WithoutDrop(rest, k - 1, hit);
    }
  }
}
