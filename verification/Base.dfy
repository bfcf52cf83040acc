// Small facts about options, finite sets and their sizes, shared by every component.
module Base {

  datatype Option<+T> = None | Some(value: T)

  // The least element of a set of row keys: the order in which a bulk statement visits its rows.
  predicate IsLeast(s: set<nat>, x: nat) {
    x in s && forall y :: y in s ==> x <= y
  }

  lemma {:induction false} LeastExists(s: set<nat>)
    requires s != {}
    ensures exists x :: IsLeast(s, x)
  {
    var x :| x in s;
    if s == {x} {
      assert IsLeast(s, x);
    } else {
      LeastExists(s - {x});
      var m :| IsLeast(s - {x}, m);
      forall y | y in s
        ensures (if x <= m then x else m) <= y
      {
        assert y == x || y in s - {x};
      }
      assert IsLeast(s, if x <= m then x else m);
    }
  }

  function Least(s: set<nat>): (x: nat)
    requires s != {}
    ensures IsLeast(s, x)
  {
    LeastExists(s);
    var x :| x in s && forall y :: y in s ==> x <= y;
    x
  }

  lemma {:induction false} SubsetSize<T>(a: set<T>, b: set<T>)
    requires a <= b
    ensures |a| <= |b|
    ensures |a| == |b| ==> a == b
  {
    assert b == a + (b - a);
    assert |b| == |a| + |b - a|;
    if |a| == |b| {
      assert b - a == {};
    }
  }

  lemma {:induction false} Bound(xs: set<int>) returns (b: nat)
    ensures forall x :: x in xs ==> x <= b
  {
    b := 0;
    if x :| x in xs {
      b := Bound(xs - {x});
      b := if x <= b then b else x;
      forall y | y in xs
        ensures y <= b
      {
        assert y == x || y in xs - {x};
      }
    }
  }

  // A set of rows whose images under f are pairwise distinct is no larger than any set
  // that holds those images.
  lemma {:induction false} InjectionSize<T, U>(rows: set<T>, images: set<U>, f: T -> U)
    requires forall x :: x in rows ==> f(x) in images
    requires forall x, y :: x in rows && y in rows && f(x) == f(y) ==> x == y
    ensures |rows| <= |images|
  {
    if rows == {} {
    } else {
      var x :| x in rows;
      InjectionSize(rows - {x}, images - {f(x)}, f);
    }
  }

  // Conversely a set of rows whose images cover a set is at least as large as it.
  lemma {:induction false} CoverSize<T, U>(rows: set<T>, images: set<U>, f: T -> U)
    requires forall u :: u in images ==> exists x :: x in rows && f(x) == u
    ensures |images| <= |rows|
  {
    if images == {} {
    } else {
      var u :| u in images;
      var x :| x in rows && f(x) == u;
      forall v | v in images - {u}
        ensures exists y :: y in rows - {x} && f(y) == v
      {
        var y :| y in rows && f(y) == v;
        assert y in rows - {x};
      }
      CoverSize(rows - {x}, images - {u}, f);
    }
  }

  // A value that only grows from step to step has each earlier value as a prefix.
  lemma {:induction false} PrefixChain<T>(xs: seq<seq<T>>, i: nat, k: nat)
    requires i <= k < |xs|
    requires forall j :: 0 < j < |xs| ==> xs[j - 1] <= xs[j]
    ensures xs[i] <= xs[k]
    decreases k
  {
    if i < k {
      PrefixChain(xs, i, k - 1);
      assert xs[k - 1] <= xs[k];
    }
  }

  lemma {:induction false} MonotoneChain(xs: seq<nat>, i: nat, k: nat)
    requires i <= k < |xs|
    requires forall j :: 0 < j < |xs| ==> xs[j - 1] <= xs[j]
    ensures xs[i] <= xs[k]
    decreases k
  {
    if i < k {
      MonotoneChain(xs, i, k - 1);
      assert xs[k - 1] <= xs[k];
    }
  }

  // What each step passes on stays true.
  lemma {:induction false} StaysTrue(flags: seq<bool>, i: nat, k: nat)
    requires i <= k < |flags| && flags[i]
    requires forall j :: i <= j < k && flags[j] ==> flags[j + 1]
    ensures flags[k]
    decreases k
  {
    if i < k {
      StaysTrue(flags, i, k - 1);
      assert flags[k - 1];
    }
  }

  // Where a sequence of moves leads, if each of them can be made.
  function After<S, M>(step: (S, M) -> Option<S>, s: S, ms: seq<M>): Option<S>
    decreases |ms|
  {
    if ms == [] then Some(s)
    else match step(s, ms[0])
      case Some(t) => After(step, t, ms[1..])
      case None => None
  }

  lemma One<S, M>(step: (S, M) -> Option<S>, s: S, mv: M)
    ensures After(step, s, [mv]) == step(s, mv)
  {
    assert [mv][1..] == [];
  }

  lemma {:induction false} Both<S, M>(step: (S, M) -> Option<S>, s: S, a: seq<M>, t: S, b: seq<M>)
    requires After(step, s, a) == Some(t)
    ensures After(step, s, a + b) == After(step, t, b)
    decreases |a|
  {
    if a == [] {
      assert a + b == b;
    } else {
      assert (a + b)[1..] == a[1..] + b;
      Both(step, step(s, a[0]).value, a[1..], t, b);
    }
  }

  lemma Two<S, M>(step: (S, M) -> Option<S>, s: S, a: M, t: S, b: M)
    requires step(s, a) == Some(t)
    ensures After(step, s, [a, b]) == step(t, b)
  {
    One(step, s, a);
    One(step, t, b);
    Both(step, s, [a], t, [b]);
    assert [a] + [b] == [a, b];
  }
}
