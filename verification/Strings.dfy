/** Strings as keys: the order in which a sorted map visits them, substring search, and
    building and taking apart `session_device` names. */
module Strings {

  // ----- lexicographic order

  predicate Leq(a: string, b: string) {
    a == [] || (b != [] && (a[0] < b[0] || (a[0] == b[0] && Leq(a[1..], b[1..]))))
  }

  lemma {:induction false} LeqTotal(a: string, b: string)
    ensures Leq(a, b) || Leq(b, a)
  {
    if a != [] && b != [] {
      LeqTotal(a[1..], b[1..]);
    }
  }

  lemma {:induction false} LeqAntisymmetric(a: string, b: string)
    requires Leq(a, b) && Leq(b, a)
    ensures a == b
  {
    if a != [] && b != [] {
      LeqAntisymmetric(a[1..], b[1..]);
      assert a == [a[0]] + a[1..] && b == [b[0]] + b[1..];
    }
  }

  lemma {:induction false} LeqTransitive(a: string, b: string, c: string)
    requires Leq(a, b) && Leq(b, c)
    ensures Leq(a, c)
  {
    if a != [] && b != [] && c != [] && a[0] == b[0] == c[0] {
      LeqTransitive(a[1..], b[1..], c[1..]);
    }
  }

  predicate IsLeast(m: string, s: set<string>) {
    m in s && forall k :: k in s ==> Leq(m, k)
  }

  lemma {:induction false} LeastExists(s: set<string>)
    requires s != {}
    ensures exists m :: IsLeast(m, s)
    decreases |s|
  {
    var x :| x in s;
    LeqTotal(x, x);
    if s == {x} {
      assert IsLeast(x, s);
    } else {
      LeastExists(s - {x});
      var m :| IsLeast(m, s - {x});
      LeqTotal(x, m);
      var least := if Leq(x, m) then x else m;
      forall k | k in s ensures Leq(least, k) {
        if k != x && Leq(x, m) {
          LeqTransitive(x, m, k);
        }
      }
      assert IsLeast(least, s);
    }
  }

  lemma LeastIsUnique(a: string, b: string, s: set<string>)
    requires IsLeast(a, s) && IsLeast(b, s)
    ensures a == b
  {
    LeqAntisymmetric(a, b);
  }

  function Least(s: set<string>): (m: string)
    requires s != {}
    ensures IsLeast(m, s)
  {
    LeastExists(s);
    assert forall a, b :: IsLeast(a, s) && IsLeast(b, s) ==> a == b by {
      forall a, b | IsLeast(a, s) && IsLeast(b, s) ensures a == b {
        LeastIsUnique(a, b, s);
      }
    }
    var m :| IsLeast(m, s);
    m
  }

  /** The order in which a sorted container visits its keys. */
  function InOrder(s: set<string>): (ks: seq<string>)
    ensures forall k :: k in ks <==> k in s
    ensures Distinct(ks)
    decreases |s|
  {
    if s == {} then []
    else
      var m := Least(s);
      [m] + InOrder(s - {m})
  }

  predicate Sorted(ks: seq<string>) {
    forall i, j :: 0 <= i < j < |ks| ==> Leq(ks[i], ks[j])
  }

  lemma {:induction false} InOrderIsSorted(s: set<string>)
    ensures Sorted(InOrder(s))
    decreases |s|
  {
    if s != {} {
      var m := Least(s);
      var rest := InOrder(s - {m});
      InOrderIsSorted(s - {m});
      forall j | 0 <= j < |rest| ensures Leq(m, rest[j]) {
        assert rest[j] in rest;
      }
    }
  }

  predicate Distinct(ks: seq<string>) {
    forall i, j :: 0 <= i < j < |ks| ==> ks[i] != ks[j]
  }

  /** The elements of `ks` that satisfy `p`, in the same order. */
  function Filter(ks: seq<string>, p: string -> bool): seq<string> {
    if ks == [] then []
    else
      var n := |ks| - 1;
      Filter(ks[..n], p) + (if p(ks[n]) then [ks[n]] else [])
  }

  lemma {:induction false} FilterConcat(a: seq<string>, b: seq<string>, p: string -> bool)
    ensures Filter(a + b, p) == Filter(a, p) + Filter(b, p)
  {
    if b == [] {
      assert a + b == a;
    } else {
      var n := |b| - 1;
      FilterConcat(a, b[..n], p);
      assert (a + b)[..|a| + n] == a + b[..n];
    }
  }

  lemma {:induction false} FilterMembers(ks: seq<string>, p: string -> bool)
    ensures forall k :: k in Filter(ks, p) <==> k in ks && p(k)
  {
    if ks != [] {
      var n := |ks| - 1;
      FilterMembers(ks[..n], p);
      assert ks == ks[..n] + [ks[n]];
    }
  }

  function Select(s: set<string>, p: string -> bool): set<string> {
    set k | k in s && p(k)
  }

  /** Visiting only the keys that satisfy `p` is visiting the set of those keys. */
  lemma {:induction false} FilterInOrder(s: set<string>, p: string -> bool)
    ensures Filter(InOrder(s), p) == InOrder(Select(s, p))
    decreases |s|
  {
    if s == {} {
      assert Select(s, p) == {};
    } else {
      var m := Least(s);
      var rest := s - {m};
      FilterInOrder(rest, p);
      FilterConcat([m], InOrder(rest), p);
      assert Filter([m], p) == if p(m) then [m] else [] by { assert [m][..0] == []; }
      SelectLeast(s, p);
    }
  }

  lemma SelectLeast(s: set<string>, p: string -> bool)
    requires s != {}
    ensures var m, t := Least(s), Select(s, p);
      if p(m) then t != {} && Least(t) == m && t - {m} == Select(s - {m}, p) else t == Select(s - {m}, p)
  {
    var m, t := Least(s), Select(s, p);
    if p(m) {
      assert IsLeast(m, t);
      LeastIsUnique(m, Least(t), t);
    }
  }
}
