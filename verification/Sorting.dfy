/** A stable sort by insertion, under any total order. */
module StableSorts {
  import opened OrderedMaps

  /** Any two are in order one way or the other, and what lies between is in order, too. */
  ghost predicate Orders<T(!new)>(le: (T, T) -> bool) {
    && (forall a, b :: le(a, b) || le(b, a))
    && (forall a, b, c :: le(a, b) && le(b, c) ==> le(a, c))
  }

  /** `x` after everything it does not strictly precede. */
  function Insert<T>(s: seq<T>, x: T, le: (T, T) -> bool): seq<T> {
    if s == [] || le(s[|s| - 1], x) then s + [x] else Insert(s[..|s| - 1], x, le) + [s[|s| - 1]]
  }

  function Sorted<T>(s: seq<T>, le: (T, T) -> bool): seq<T> {
    if s == [] then [] else Insert(Sorted(s[..|s| - 1], le), s[|s| - 1], le)
  }

  ghost predicate InOrder<T>(s: seq<T>, le: (T, T) -> bool) {
    forall i, j :: 0 <= i < j < |s| ==> le(s[i], s[j])
  }

  lemma EndsLast<T>(s: seq<T>, x: T, le: (T, T) -> bool)
    requires InOrder(s, le) && forall d <- s :: le(d, x)
    ensures InOrder(s + [x], le)
  {}

  lemma LastIsLast<T(!new)>(s: seq<T>, x: T, le: (T, T) -> bool)
    requires Orders(le) && InOrder(s, le) && s != [] && le(s[|s| - 1], x)
    ensures forall d <- s :: le(d, x)
  {
    forall d <- s ensures le(d, x) {
      var i :| 0 <= i < |s| && s[i] == d;
      assert i < |s| - 1 ==> le(s[i], s[|s| - 1]);
    }
  }

  lemma {:induction false} InsertAdds<T>(s: seq<T>, x: T, le: (T, T) -> bool)
    ensures multiset(Insert(s, x, le)) == multiset(s) + multiset{x}
  {
    if s != [] && !le(s[|s| - 1], x) {
      assert s == s[..|s| - 1] + [s[|s| - 1]];
      InsertAdds(s[..|s| - 1], x, le);
    }
  }

  lemma Among<T>(s: seq<T>, t: seq<T>, x: T)
    requires multiset(s) == multiset(t) + multiset{x}
    ensures forall d :: d in s <==> d in t || d == x
  {
    forall d ensures d in s <==> d in t || d == x {
      assert d in multiset(s) <==> d in multiset(t) || d == x;
    }
  }

  lemma {:induction false} InsertSorts<T(!new)>(s: seq<T>, x: T, le: (T, T) -> bool)
    requires Orders(le) && InOrder(s, le)
    ensures InOrder(Insert(s, x, le), le)
  {
    if s != [] && !le(s[|s| - 1], x) {
      var init, last := s[..|s| - 1], s[|s| - 1];
      InsertSorts(init, x, le);
      InsertAdds(init, x, le);
      Among(Insert(init, x, le), init, x);
      assert Insert(s, x, le) == Insert(init, x, le) + [last];
      hide Insert, Orders;
      assert le(x, last);
      forall d <- Insert(init, x, le) ensures le(d, last) {
        if d in init {
          var i :| 0 <= i < |init| && init[i] == d;
          assert s[i] == d;
        }
      }
      EndsLast(Insert(init, x, le), last, le);
    } else {
      if s != [] {
        LastIsLast(s, x, le);
      }
      EndsLast(s, x, le);
    }
  }

  /** What is sorted is in order, and the same elements. */
  lemma {:induction false} SortedSorts<T(!new)>(s: seq<T>, le: (T, T) -> bool)
    requires Orders(le)
    ensures InOrder(Sorted(s, le), le) && multiset(Sorted(s, le)) == multiset(s)
    ensures forall d :: d in Sorted(s, le) <==> d in s
  {
    if s != [] {
      var init, last := s[..|s| - 1], s[|s| - 1];
      assert s == init + [last];
      hide InOrder, Orders, Insert;
      SortedSorts(init, le);
      InsertSorts(Sorted(init, le), last, le);
      InsertAdds(Sorted(init, le), last, le);
      assert multiset(s) == multiset(init) + multiset{last};
      Among(Sorted(s, le), Sorted(init, le), last);
      Among(s, init, last);
    }
  }

  lemma {:induction false} InsertKeepsOrder<T>(s: seq<T>, x: T, le: (T, T) -> bool, p: T -> bool)
    requires p(x) ==> forall d <- s :: p(d) ==> le(d, x)
    ensures Filter(Insert(s, x, le), p) == Filter(s, p) + if p(x) then [x] else []
  {
    if s == [] || le(s[|s| - 1], x) {
      assert Insert(s, x, le) == s + [x];
      hide *;
      FilterLast(s, x, p);
    } else {
      var init, last := s[..|s| - 1], s[|s| - 1];
      assert p(x) ==> !p(last);
      assert Insert(s, x, le) == Insert(init, x, le) + [last];
      Last([], s);
      hide *;
      Nothing(s);
      Nothing(init);
      InsertKeepsOrder(init, x, le, p);
      FilterLast(Insert(init, x, le), last, p);
      FilterLast(init, last, p);
      Nothing(Filter(init, p));
      Nothing(Filter(init, p) + if p(x) then [x] else []);
    }
  }

  lemma LastComesLast<T>(s: seq<T>, x: T, le: (T, T) -> bool, picked: bool)
    requires InOrder(s + if picked then [x] else [], le)
    ensures InOrder(s, le)
    ensures picked ==> forall d <- s :: le(d, x)
  {
    var more := s + if picked then [x] else [];
    assert forall i :: 0 <= i < |s| ==> more[i] == s[i];
    assert picked ==> more[|s|] == x;
  }

  /** Elements of one kind that came in order stay in the order they came in. */
  lemma {:induction false} SortedKeepsOrder<T>(s: seq<T>, le: (T, T) -> bool, p: T -> bool)
    requires InOrder(Filter(s, p), le)
    ensures Filter(Sorted(s, le), p) == Filter(s, p)
  {
    if s != [] {
      var init, last := s[..|s| - 1], s[|s| - 1];
      assert Filter(s, p) == Filter(init, p) + if p(last) then [last] else [];
      hide Insert;
      LastComesLast(Filter(init, p), last, le, p(last));
      SortedKeepsOrder(init, le, p);
      assert forall d <- Sorted(init, le) :: p(d) ==> d in Filter(init, p);
      InsertKeepsOrder(Sorted(init, le), last, le, p);
    }
  }
}
