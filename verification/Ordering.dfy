/** Strict orders, stable sorting by a key, and when a sorted arrangement is unique. */
module Ordering {

  /** Code-point order of strings. */
  predicate StringLess(a: string, b: string) {
    b != [] && (a == [] || a[0] < b[0] || (a[0] == b[0] && StringLess(a[1..], b[1..])))
  }

  /** The first `k` characters agree; there the first string ends or holds the smaller character. */
  ghost predicate DiffersAt(a: string, b: string, k: nat) {
    k <= |a| && k < |b| && a[..k] == b[..k] && (k == |a| || a[k] < b[k])
  }

  /** One string is less than another when it is a proper prefix or smaller at the first difference. */
  lemma {:induction false} StringLessIff(a: string, b: string)
    ensures StringLess(a, b) <==> exists k: nat :: DiffersAt(a, b, k)
  {
    if a != [] && b != [] {
      var a', b' := a[1..], b[1..];
      StringLessIff(a', b');
      if a[0] < b[0] { assert DiffersAt(a, b, 0); }
      if a[0] == b[0] && StringLess(a', b') {
        var k: nat :| DiffersAt(a', b', k);
        assert a[..k + 1] == [a[0]] + a'[..k] && b[..k + 1] == [b[0]] + b'[..k];
        assert DiffersAt(a, b, k + 1);
      }
      if k: nat :| DiffersAt(a, b, k) {
        if k > 0 {
          assert a[0] == a[..k][0] == b[..k][0] == b[0];
          assert a'[..k - 1] == a[..k][1..] && b'[..k - 1] == b[..k][1..];
          assert DiffersAt(a', b', k - 1);
        }
      }
    } else if b != [] {
      assert DiffersAt(a, b, 0);
    }
  }

  lemma {:induction false} StringTrichotomy(a: string, b: string)
    ensures StringLess(a, b) || StringLess(b, a) || a == b
    ensures !(StringLess(a, b) && StringLess(b, a)) && !StringLess(a, a)
  {
    if a != [] && b != [] && a[0] == b[0] {
      StringTrichotomy(a[1..], b[1..]);
      assert a == [a[0]] + a[1..] && b == [b[0]] + b[1..];
    }
    if a != [] { StringTrichotomy(a[1..], a[1..]); }
  }

  lemma {:induction false} StringTransitive(a: string, b: string, c: string)
    requires StringLess(a, b) && StringLess(b, c)
    ensures StringLess(a, c)
  {
    if a != [] && a[0] == b[0] && b[0] == c[0] {
      StringTransitive(a[1..], b[1..], c[1..]);
    }
  }

  /** A strict weak order: what a comparison of keys gives. */
  ghost predicate StrictOrder<T(!new)>(less: (T, T) -> bool) {
    && (forall x :: !less(x, x))
    && (forall x, y, z :: less(x, y) && less(y, z) ==> less(x, z))
    && (forall x, y, z :: less(x, z) ==> less(x, y) || less(y, z))
  }

  ghost predicate Ascending<T(!new)>(s: seq<T>, less: (T, T) -> bool) {
    forall i, j :: 0 <= i < j < |s| ==> !less(s[j], s[i])
  }

  ghost predicate StrictlyAscending<T(!new)>(s: seq<T>, less: (T, T) -> bool) {
    forall i, j :: 0 <= i < j < |s| ==> less(s[i], s[j])
  }

  /** Inserts after every element that is not greater. */
  function Insert<T>(x: T, s: seq<T>, less: (T, T) -> bool): seq<T> {
    if s == [] || less(x, s[0]) then [x] + s else [s[0]] + Insert(x, s[1..], less)
  }

  /** The stable sort. */
  function SortBy<T>(s: seq<T>, less: (T, T) -> bool): seq<T> {
    if s == [] then [] else Insert(s[|s| - 1], SortBy(s[..|s| - 1], less), less)
  }

  lemma {:induction false} InsertPermutes<T>(x: T, s: seq<T>, less: (T, T) -> bool)
    ensures multiset(Insert(x, s, less)) == multiset(s) + multiset{x}
    ensures |Insert(x, s, less)| == |s| + 1
  {
    if s != [] && !less(x, s[0]) {
      InsertPermutes(x, s[1..], less);
      assert s == [s[0]] + s[1..];
    }
  }

  lemma {:induction false} SortPermutes<T>(s: seq<T>, less: (T, T) -> bool)
    ensures multiset(SortBy(s, less)) == multiset(s) && |SortBy(s, less)| == |s|
  {
    if s != [] {
      var n := |s| - 1;
      SortPermutes(s[..n], less);
      InsertPermutes(s[n], SortBy(s[..n], less), less);
      assert s == s[..n] + [s[n]];
    }
  }

  lemma SameElements<T>(s: seq<T>, t: seq<T>)
    requires multiset(s) == multiset(t)
    ensures forall x :: x in s <==> x in t
  {
    forall x ensures x in s <==> x in t {
      assert x in s <==> x in multiset(s);
      assert x in t <==> x in multiset(t);
    }
  }

  lemma {:induction false} InsertAscending<T(!new)>(x: T, s: seq<T>, less: (T, T) -> bool)
    requires StrictOrder(less) && Ascending(s, less)
    ensures Ascending(Insert(x, s, less), less)
  {
    if s != [] {
      if less(x, s[0]) {
        forall j | 0 <= j < |s| ensures !less(s[j], x) {
          assert j == 0 || !less(s[j], s[0]);
        }
      } else {
        var rest := Insert(x, s[1..], less);
        InsertAscending(x, s[1..], less);
        InsertPermutes(x, s[1..], less);
        forall j | 0 <= j < |rest| ensures !less(rest[j], s[0]) {
          assert rest[j] in multiset(rest);
          if rest[j] != x {
            assert rest[j] in s[1..];
            var k :| 0 <= k < |s[1..]| && s[1..][k] == rest[j];
            assert s[k + 1] == rest[j];
          }
        }
      }
    }
  }

  lemma {:induction false} SortAscending<T(!new)>(s: seq<T>, less: (T, T) -> bool)
    requires StrictOrder(less)
    ensures Ascending(SortBy(s, less), less)
  {
    if s != [] {
      SortAscending(s[..|s| - 1], less);
      InsertAscending(s[|s| - 1], SortBy(s[..|s| - 1], less), less);
    }
  }

  /** `a` stands somewhere in front of `b`. */
  ghost predicate InFront<T>(s: seq<T>, a: T, b: T) { exists i, j :: 0 <= i < j < |s| && s[i] == a && s[j] == b }

  lemma InFrontOfMember<T>(a: T, rest: seq<T>, b: T)
    requires b in rest
    ensures InFront([a] + rest, a, b)
  {
    var j :| 0 <= j < |rest| && rest[j] == b;
    assert ([a] + rest)[0] == a && ([a] + rest)[j + 1] == b;
  }

  lemma InFrontOfRest<T>(x: T, rest: seq<T>, a: T, b: T)
    requires InFront(rest, a, b)
    ensures InFront([x] + rest, a, b)
  {
    var i, j :| 0 <= i < j < |rest| && rest[i] == a && rest[j] == b;
    assert ([x] + rest)[i + 1] == a && ([x] + rest)[j + 1] == b;
  }

  /** Stability of one insertion: an element that is not greater stays in front of the inserted one. */
  lemma {:induction false} InsertedBehind<T(!new)>(x: T, s: seq<T>, less: (T, T) -> bool, k: nat)
    requires StrictOrder(less) && Ascending(s, less) && k < |s| && !less(x, s[k])
    ensures InFront(Insert(x, s, less), s[k], x)
  {
    hide InFront;
    assert k == 0 || !less(s[k], s[0]);
    assert !less(x, s[0]);
    var rest := Insert(x, s[1..], less);
    if k == 0 {
      InsertPermutes(x, s[1..], less);
      assert x in multiset(rest);
      InFrontOfMember(s[0], rest, x);
    } else {
      InsertedBehind(x, s[1..], less, k - 1);
      InFrontOfRest(s[0], rest, s[k], x);
    }
  }

  /** Stability of the sort for its last element. */
  lemma SortedBehind<T(!new)>(s: seq<T>, x: T, less: (T, T) -> bool, y: T)
    requires StrictOrder(less) && y in s && !less(x, y)
    ensures InFront(SortBy(s + [x], less), y, x)
  {
    hide InFront;
    var sorted := SortBy(s, less);
    SortAscending(s, less);
    SortPermutes(s, less);
    SameElements(s, sorted);
    var k :| 0 <= k < |sorted| && sorted[k] == y;
    InsertedBehind(x, sorted, less, k);
    assert (s + [x])[..|s|] == s && (s + [x])[|s|] == x;
    assert SortBy(s + [x], less) == Insert(x, sorted, less);
  }

  /** There is only one way to list given elements in strictly ascending order. */
  lemma {:induction false} StrictlyAscendingUnique<T(!new)>(s: seq<T>, t: seq<T>, less: (T, T) -> bool)
    requires StrictOrder(less) && StrictlyAscending(s, less) && StrictlyAscending(t, less)
    requires forall x :: x in s <==> x in t
    ensures s == t
  {
    assert |s| > 0 ==> s[0] in s;
    assert |t| > 0 ==> t[0] in t;
    if s != [] && t != [] {
      FirstIsLeast(s, t, less);
      FirstIsLeast(t, s, less);
      assert s[0] == t[0];
      forall x ensures x in s[1..] <==> x in t[1..] {
        TailMember(s, less, x);
        TailMember(t, less, x);
      }
      StrictlyAscendingUnique(s[1..], t[1..], less);
      assert s == [s[0]] + s[1..] && t == [t[0]] + t[1..];
    }
  }

  lemma FirstIsLeast<T(!new)>(s: seq<T>, t: seq<T>, less: (T, T) -> bool)
    requires StrictOrder(less) && StrictlyAscending(s, less) && s != [] && t != [] && forall x :: x in s <==> x in t
    ensures s[0] == t[0] || less(s[0], t[0])
  {
    assert t[0] in s;
    var k :| 0 <= k < |s| && s[k] == t[0];
  }

  lemma TailMember<T(!new)>(s: seq<T>, less: (T, T) -> bool, x: T)
    requires StrictOrder(less) && StrictlyAscending(s, less) && s != []
    ensures x in s[1..] <==> x in s && x != s[0]
  {
    if x in s && x != s[0] {
      var k :| 0 <= k < |s| && s[k] == x;
      assert s[1..][k - 1] == x;
    }
    if x in s[1..] {
      var k :| 0 <= k < |s[1..]| && s[1..][k] == x;
      assert s[k + 1] == x && less(s[0], s[k + 1]);
    }
  }

  /**
   * Sorting by a key that separates all the elements forgets the order they came in; without separation it may
   * not, because equal keys keep their order.
   */
  lemma SortForgetsOrder<T(!new)>(s: seq<T>, t: seq<T>, less: (T, T) -> bool)
    requires StrictOrder(less) && multiset(s) == multiset(t)
    requires forall i, j :: 0 <= i < j < |s| ==> less(s[i], s[j]) || less(s[j], s[i])
    ensures SortBy(s, less) == SortBy(t, less)
  {
    SortedStrictly(s, less);
    SeparatedToo(s, t, less);
    SortedStrictly(t, less);
    SortPermutes(s, less);
    SortPermutes(t, less);
    SameElements(SortBy(s, less), SortBy(t, less));
    StrictlyAscendingUnique(SortBy(s, less), SortBy(t, less), less);
  }

  /** Separation: no element occurs twice, and different elements compare. */
  lemma SeparatedToo<T(!new)>(s: seq<T>, t: seq<T>, less: (T, T) -> bool)
    requires StrictOrder(less) && multiset(s) == multiset(t)
    requires forall i, j :: 0 <= i < j < |s| ==> less(s[i], s[j]) || less(s[j], s[i])
    ensures forall i, j :: 0 <= i < j < |t| ==> less(t[i], t[j]) || less(t[j], t[i])
  {
    SameElements(s, t);
    forall i, j | 0 <= i < j < |t| ensures less(t[i], t[j]) || less(t[j], t[i]) {
      assert t[i] in s && t[j] in s;
      var a :| 0 <= a < |s| && s[a] == t[i];
      if t[i] == t[j] {
        TwiceInSequence(t, i, j);
        OnceInSequence(s, less, a);
        assert false;
      }
      var b :| 0 <= b < |s| && s[b] == t[j];
    }
  }

  lemma TwiceInSequence<T>(t: seq<T>, i: nat, j: nat)
    requires i < j < |t| && t[i] == t[j]
    ensures 2 <= multiset(t)[t[i]]
  {
    assert t == t[..j] + t[j..];
    assert t[i] == t[..j][i] && t[i] in multiset(t[..j]);
    assert t[j] == t[j..][0] && t[j] in multiset(t[j..]);
  }

  lemma {:induction false} OnceInSequence<T(!new)>(s: seq<T>, less: (T, T) -> bool, a: nat)
    requires StrictOrder(less) && a < |s| && forall i, j :: 0 <= i < j < |s| ==> less(s[i], s[j]) || less(s[j], s[i])
    ensures multiset(s)[s[a]] == 1
  {
    assert s == s[..a] + [s[a]] + s[a + 1..];
    forall k | 0 <= k < |s| && k != a ensures s[k] != s[a] {
      if k < a { assert less(s[k], s[a]) || less(s[a], s[k]); } else { assert less(s[a], s[k]) || less(s[k], s[a]); }
    }
    assert s[a] !in multiset(s[..a]) && s[a] !in multiset(s[a + 1..]);
  }

  lemma SortedStrictly<T(!new)>(s: seq<T>, less: (T, T) -> bool)
    requires StrictOrder(less)
    requires forall i, j :: 0 <= i < j < |s| ==> less(s[i], s[j]) || less(s[j], s[i])
    ensures StrictlyAscending(SortBy(s, less), less)
  {
    SortAscending(s, less);
    SortPermutes(s, less);
    SeparatedToo(s, SortBy(s, less), less);
  }
}
