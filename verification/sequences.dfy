/** Two loop shapes shared by the auditors: append what each item yields, and stop at the first hit. */
module Sequences {

  function FlatMap<T, R>(xs: seq<T>, emit: T -> seq<R>): seq<R> {
    if xs == [] then [] else emit(xs[0]) + FlatMap(xs[1..], emit)
  }

  lemma {:induction false} FlatMapConcat<T, R>(xs: seq<T>, ys: seq<T>, emit: T -> seq<R>)
    ensures FlatMap(xs + ys, emit) == FlatMap(xs, emit) + FlatMap(ys, emit)
  {
    if xs == [] {
      assert xs + ys == ys;
    } else {
      calc {
        FlatMap(xs + ys, emit);
        { assert (xs + ys)[1..] == xs[1..] + ys; }
        emit(xs[0]) + FlatMap(xs[1..] + ys, emit);
        { FlatMapConcat(xs[1..], ys, emit); }
        emit(xs[0]) + (FlatMap(xs[1..], emit) + FlatMap(ys, emit));
        (emit(xs[0]) + FlatMap(xs[1..], emit)) + FlatMap(ys, emit);
      }
    }
  }

  lemma FlatMapSingle<T, R>(x: T, emit: T -> seq<R>)
    ensures FlatMap([x], emit) == emit(x)
  {
    assert [x][1..] == [];
    assert FlatMap([], emit) == [];
  }

  /** One turn of a loop that appends what each item yields. */
  lemma FlatMapStep<T, R>(done: seq<R>, xs: seq<T>, i: nat, emit: T -> seq<R>)
    requires i < |xs|
    ensures done + FlatMap(xs[i..], emit) == done + emit(xs[i]) + FlatMap(xs[i + 1..], emit)
  {
    assert xs[i..][0] == xs[i] && xs[i..][1..] == xs[i + 1..];
    assert done + (emit(xs[i]) + FlatMap(xs[i + 1..], emit)) == done + emit(xs[i]) + FlatMap(xs[i + 1..], emit);
  }

  lemma TakeOut<T>(xs: seq<T>, j: nat)
    requires j < |xs|
    ensures multiset(xs) == multiset([xs[j]]) + multiset(xs[..j] + xs[j + 1..])
  {
    assert xs == xs[..j] + ([xs[j]] + xs[j + 1..]);
  }

  lemma FlatMapAround<T, R>(front: seq<T>, x: T, back: seq<T>, emit: T -> seq<R>)
    ensures FlatMap(front + ([x] + back), emit) == FlatMap(front, emit) + (emit(x) + FlatMap(back, emit))
  {
    FlatMapConcat(front, [x] + back, emit);
    FlatMapConcat([x], back, emit);
    FlatMapSingle(x, emit);
  }

  /** Taking one item out takes exactly its own results out. */
  lemma FlatMapTakeOut<T, R>(xs: seq<T>, j: nat, emit: T -> seq<R>)
    requires j < |xs|
    ensures multiset(FlatMap(xs, emit)) ==
      multiset(emit(xs[j])) + multiset(FlatMap(xs[..j] + xs[j + 1..], emit))
  {
    hide FlatMap;
    var front, back := xs[..j], xs[j + 1..];
    assert xs == front + ([xs[j]] + back);
    FlatMapAround(front, xs[j], back, emit);
    FlatMapConcat(front, back, emit);
    var a, b, c := FlatMap(front, emit), emit(xs[j]), FlatMap(back, emit);
    assert multiset(a + (b + c)) == multiset(a) + (multiset(b) + multiset(c));
  }

  lemma RestIsPermuted<T>(xs: seq<T>, ys: seq<T>, j: nat)
    requires xs != [] && j < |ys| && ys[j] == xs[0]
    requires multiset(xs) == multiset(ys)
    ensures multiset(xs[..0] + xs[1..]) == multiset(ys[..j] + ys[j + 1..])
  {
    TakeOut(xs, 0);
    TakeOut(ys, j);
    assert multiset(xs[..0] + xs[1..]) == multiset(xs) - multiset([xs[0]]);
    assert multiset(ys[..j] + ys[j + 1..]) == multiset(ys) - multiset([ys[j]]);
  }

  lemma {:induction false} FlatMapPermuted<T, R>(xs: seq<T>, ys: seq<T>, emit: T -> seq<R>)
    requires multiset(xs) == multiset(ys)
    ensures multiset(FlatMap(xs, emit)) == multiset(FlatMap(ys, emit))
  {
    assert |xs| == |multiset(xs)|;
    assert |ys| == |multiset(ys)|;
    if xs != [] {
      assert xs[0] in multiset(ys);
      var j :| 0 <= j < |ys| && ys[j] == xs[0];
      RestIsPermuted(xs, ys, j);
      FlatMapPermuted(xs[..0] + xs[1..], ys[..j] + ys[j + 1..], emit);
      FlatMapTakeOut(xs, 0, emit);
      FlatMapTakeOut(ys, j, emit);
    }
  }

  lemma {:induction false} FlatMapContains<T, R>(xs: seq<T>, emit: T -> seq<R>)
    ensures forall r :: r in FlatMap(xs, emit) <==> exists x :: x in xs && r in emit(x)
  {
    if xs != [] {
      FlatMapContains(xs[1..], emit);
      assert forall x :: x in xs <==> x == xs[0] || x in xs[1..];
    }
  }

  lemma {:induction false} FlatMapEmpty<T, R>(xs: seq<T>, emit: T -> seq<R>)
    ensures FlatMap(xs, emit) == [] <==> forall x :: x in xs ==> emit(x) == []
  {
    if xs != [] {
      FlatMapEmpty(xs[1..], emit);
      assert forall x :: x in xs <==> x == xs[0] || x in xs[1..];
    }
  }

  /** A list that leaves nothing out. */
  lemma FlatMapOfAll<T(!new), R>(xs: seq<T>, emit: T -> seq<R>)
    requires forall x: T :: x in xs
    ensures forall r :: r in FlatMap(xs, emit) <==> exists x :: r in emit(x)
    ensures FlatMap(xs, emit) == [] <==> forall x :: emit(x) == []
  {
    FlatMapContains(xs, emit);
    FlatMapEmpty(xs, emit);
  }

  /** The first element that passes the test, as a sequence of at most one. */
  function FirstWhere<T>(xs: seq<T>, test: T -> bool): seq<T> {
    if xs == [] then [] else if test(xs[0]) then [xs[0]] else FirstWhere(xs[1..], test)
  }

  predicate FirstAt<T>(xs: seq<T>, test: T -> bool, k: int) {
    0 <= k < |xs| && test(xs[k]) && forall j :: 0 <= j < k ==> !test(xs[j])
  }

  lemma {:induction false} FirstWhereIsFirst<T>(xs: seq<T>, test: T -> bool)
    ensures FirstWhere(xs, test) == [] <==> forall x :: x in xs ==> !test(x)
    ensures FirstWhere(xs, test) != [] ==> exists k :: FirstAt(xs, test, k) && FirstWhere(xs, test) == [xs[k]]
  {
    if xs != [] {
      if test(xs[0]) {
        assert FirstAt(xs, test, 0);
      } else {
        FirstWhereIsFirst(xs[1..], test);
        if FirstWhere(xs, test) != [] {
          var k :| FirstAt(xs[1..], test, k) && FirstWhere(xs[1..], test) == [xs[1..][k]];
          assert FirstAt(xs, test, k + 1);
        }
      }
    }
  }

  lemma {:induction false} FirstWhereAgrees<T>(xs: seq<T>, test: T -> bool, other: T -> bool)
    requires forall x :: x in xs ==> (test(x) <==> other(x))
    ensures FirstWhere(xs, test) == FirstWhere(xs, other)
  {
    if xs != [] {
      FirstWhereAgrees(xs[1..], test, other);
    }
  }

  ghost predicate Ordered<R>(rs: seq<R>, before: (R, R) -> bool) {
    forall i, j :: 0 <= i < j < |rs| ==> before(rs[i], rs[j])
  }

  lemma OrderedConcat<R(!new)>(rs: seq<R>, ts: seq<R>, before: (R, R) -> bool)
    requires Ordered(rs, before) && Ordered(ts, before)
    requires forall r, t :: r in rs && t in ts ==> before(r, t)
    ensures Ordered(rs + ts, before)
  {
  }

  /** Results come in order when those of each item do and those of earlier items come before. */
  lemma {:induction false} FlatMapOrdered<T(!new), R(!new)>(
      xs: seq<T>, emit: T -> seq<R>, before: (R, R) -> bool, earlier: (T, T) -> bool)
    requires Ordered(xs, earlier)
    requires forall x :: x in xs ==> Ordered(emit(x), before)
    requires forall x, y, r, t :: earlier(x, y) && r in emit(x) && t in emit(y) ==> before(r, t)
    ensures Ordered(FlatMap(xs, emit), before)
  {
    if xs != [] {
      FlatMapOrdered(xs[1..], emit, before, earlier);
      FlatMapContains(xs[1..], emit);
      OrderedConcat(emit(xs[0]), FlatMap(xs[1..], emit), before);
    }
  }
}
