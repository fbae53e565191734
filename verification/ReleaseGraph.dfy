/**
 The release's packages and their internal dependencies: the depth-first
 closure that orders them, the check of the layers, and the build order.
 */
module InternalClosures {
  import opened Records
  import opened OrderedMaps

  datatype Name = Name(text: string)

  /** Each known package's internal edges. */
  type Graph = map<Name, seq<Name>>

  datatype Closing = Closed(result: seq<Name>) | Cycle(name: Name) | Unknown(name: Name)

  /** `visit`: `result` so far, and the packages being visited. */
  function Visit(g: Graph, name: Name, result: seq<Name>, visiting: set<Name>): Closing
    decreases |g.Keys - visiting|, 0
  {
    if name in result then Closed(result)
    else if name in visiting then Cycle(name)
    else if name !in g then Unknown(name)
    else
      assert g.Keys - (visiting + {name}) == g.Keys - visiting - {name};
      var r := VisitAll(g, g[name], result, visiting + {name});
      if r.Closed? then Closed(r.result + [name]) else r
  }

  function VisitAll(g: Graph, names: seq<Name>, result: seq<Name>, visiting: set<Name>): Closing
    decreases |g.Keys - visiting|, 1 + |names|
  {
    if names == [] then Closed(result)
    else
      var r := Visit(g, names[0], result, visiting);
      if r.Closed? then VisitAll(g, names[1..], r.result, visiting) else r
  }

  /** `internal_closure` of an entry with these edges. */
  function InternalClosure(g: Graph, edges: seq<Name>): Closing {
    VisitAll(g, edges, [], {})
  }

  // What is reachable.

  /** `b` is `n` edges from `a`. */
  ghost predicate ReachesIn(g: Graph, a: Name, b: Name, n: nat)
    decreases n
  {
    if n == 0 then a == b
    else a in g && exists c <- g[a] :: ReachesIn(g, c, b, n - 1)
  }

  /** `b` is an edge or more from `a`. */
  ghost predicate Reaches(g: Graph, a: Name, b: Name) {
    exists n: nat :: 0 < n && ReachesIn(g, a, b, n)
  }

  /** `b` is one of `names`, or one of them reaches it. */
  ghost predicate ReachedFrom(g: Graph, names: seq<Name>, b: Name) {
    exists a <- names :: a == b || Reaches(g, a, b)
  }

  lemma {:induction false} ReachesOn(g: Graph, a: Name, b: Name, c: Name, n: nat, m: nat)
    requires ReachesIn(g, a, b, n) && ReachesIn(g, b, c, m)
    ensures ReachesIn(g, a, c, n + m)
    decreases n
  {
    if n > 0 {
      var d :| d in g[a] && ReachesIn(g, d, b, n - 1);
      ReachesOn(g, d, b, c, n - 1, m);
    }
  }

  lemma ReachesTransitively(g: Graph, a: Name, b: Name, c: Name)
    requires Reaches(g, a, b) && (b == c || Reaches(g, b, c))
    ensures Reaches(g, a, c)
  {
    if b != c {
      var n: nat :| 0 < n && ReachesIn(g, a, b, n);
      var m: nat :| 0 < m && ReachesIn(g, b, c, m);
      ReachesOn(g, a, b, c, n, m);
    }
  }

  lemma EdgeReaches(g: Graph, a: Name, b: Name)
    requires a in g && b in g[a]
    ensures Reaches(g, a, b)
  {
    assert ReachesIn(g, b, b, 0);
    assert ReachesIn(g, a, b, 1);
  }

  // What a closure that succeeds gives.

  /** No package twice, every one known, and each one's edges before it. */
  ghost predicate DependenciesFirst(g: Graph, r: seq<Name>) {
    NoDup(r) && forall i :: 0 <= i < |r| ==> r[i] in g && forall c <- g[r[i]] :: c in r[..i]
  }

  lemma Appended(g: Graph, r: seq<Name>, name: Name)
    requires DependenciesFirst(g, r) && name !in r && name in g && forall c <- g[name] :: c in r
    ensures DependenciesFirst(g, r + [name])
  {
    var n := r + [name];
    assert n[..|r|] == r;
    forall i | 0 <= i < |n| ensures n[i] in g && forall c <- g[n[i]] :: c in n[..i] {
      if i < |r| {
        assert n[..i] == r[..i] && n[i] == r[i];
      }
    }
  }

  /** What a visit adds to `result`: packages reached from `names` only, none that is being visited. */
  ghost predicate Adds(g: Graph, names: seq<Name>, result: seq<Name>, visiting: set<Name>, r: seq<Name>) {
    && DependenciesFirst(g, r) && |result| <= |r| && r[..|result|] == result
    && (forall a <- names :: a in r)
    && (forall x <- r[|result|..] :: x !in visiting && ReachedFrom(g, names, x))
  }

  lemma {:induction false} VisitAdds(g: Graph, name: Name, result: seq<Name>, visiting: set<Name>)
    requires DependenciesFirst(g, result) && Visit(g, name, result, visiting).Closed?
    ensures Adds(g, [name], result, visiting, Visit(g, name, result, visiting).result)
    decreases |g.Keys - visiting|, 0
  {
    if name !in result {
      assert g.Keys - (visiting + {name}) == g.Keys - visiting - {name};
      var inner := VisitAll(g, g[name], result, visiting + {name}).result;
      VisitAllAdds(g, g[name], result, visiting + {name});
      assert inner == result + inner[|result|..];
      Appended(g, inner, name);
      var r := inner + [name];
      forall x <- r[|result|..] ensures x !in visiting && ReachedFrom(g, [name], x) {
        if x != name {
          assert x in inner[|result|..];
          var a :| a in g[name] && (a == x || Reaches(g, a, x));
          EdgeReaches(g, name, a);
          ReachesTransitively(g, name, a, x);
        }
        assert name in [name];
      }
    }
  }

  lemma {:induction false} VisitAllAdds(g: Graph, names: seq<Name>, result: seq<Name>, visiting: set<Name>)
    requires DependenciesFirst(g, result) && VisitAll(g, names, result, visiting).Closed?
    ensures Adds(g, names, result, visiting, VisitAll(g, names, result, visiting).result)
    decreases |g.Keys - visiting|, 1 + |names|
  {
    if names != [] {
      VisitAdds(g, names[0], result, visiting);
      var first := Visit(g, names[0], result, visiting).result;
      VisitAllAdds(g, names[1..], first, visiting);
      AddsBoth(g, names, result, visiting, first, VisitAll(g, names, result, visiting).result);
    }
  }

  lemma AddsBoth(g: Graph, names: seq<Name>, result: seq<Name>, visiting: set<Name>, first: seq<Name>, r: seq<Name>)
    requires names != [] && Adds(g, [names[0]], result, visiting, first) && Adds(g, names[1..], first, visiting, r)
    ensures Adds(g, names, result, visiting, r)
  {
    assert r[..|result|] == first[..|result|];
    forall a <- names ensures a in r {
      if a != names[0] {
        assert a in names[1..];
      } else {
        assert a in first && a in r[..|first|];
      }
    }
    forall x <- r[|result|..] ensures x !in visiting && ReachedFrom(g, names, x) {
      AddedThen(r, |result|, |first|, x);
      if x in r[|first|..] {
        var a :| a in names[1..] && (a == x || Reaches(g, a, x));
        assert a in names;
      } else {
        assert x in first[|result|..] && names[0] in names;
      }
    }
  }

  lemma AddedThen(r: seq<Name>, i: nat, j: nat, x: Name)
    requires i <= j <= |r| && x in r[i..]
    ensures x in r[..j][i..] || x in r[j..]
  {
    var k :| i <= k < |r| && r[k] == x;
    if k < j {
      assert r[..j][i..][k - i] == x;
    } else {
      assert r[j..][k - j] == x;
    }
  }

  /** Whatever a dependency-first list's member reaches comes before it. */
  lemma {:induction false} ReachedBefore(g: Graph, r: seq<Name>, i: nat, b: Name, n: nat)
    requires DependenciesFirst(g, r) && i < |r| && 0 < n && ReachesIn(g, r[i], b, n)
    ensures b in r[..i]
    decreases n
  {
    var c :| c in g[r[i]] && ReachesIn(g, c, b, n - 1);
    assert c in r[..i];
    if n > 1 {
      var j :| 0 <= j < i && r[j] == c;
      ReachedBefore(g, r, j, b, n - 1);
    }
  }

  // When a closure succeeds.

  /** `x` stands in the way of a closure: unknown, or on a cycle. */
  ghost predicate Blocks(g: Graph, x: Name) {
    x !in g || Reaches(g, x, x)
  }

  /** The package a failed visit names stands in the way, as the failure says. */
  ghost predicate Explains(g: Graph, closing: Closing) {
    && (closing.Unknown? ==> closing.name !in g)
    && (closing.Cycle? ==> Reaches(g, closing.name, closing.name))
  }

  lemma {:induction false} VisitFails(g: Graph, name: Name, result: seq<Name>, visiting: set<Name>)
    requires (forall v <- visiting :: Reaches(g, v, name)) && !Visit(g, name, result, visiting).Closed?
    ensures var closing := Visit(g, name, result, visiting);
            Explains(g, closing) && (closing.name == name || Reaches(g, name, closing.name))
    decreases |g.Keys - visiting|, 0
  {
    if name !in visiting && name in g {
      assert g.Keys - (visiting + {name}) == g.Keys - visiting - {name};
      forall v <- visiting + {name}, c <- g[name] ensures Reaches(g, v, c) {
        EdgeReaches(g, name, c);
        if v != name {
          ReachesTransitively(g, v, name, c);
        }
      }
      VisitAllFails(g, g[name], result, visiting + {name});
      var x := Visit(g, name, result, visiting).name;
      var c :| c in g[name] && (c == x || Reaches(g, c, x));
      EdgeReaches(g, name, c);
      ReachesTransitively(g, name, c, x);
    }
  }

  lemma {:induction false} VisitAllFails(g: Graph, names: seq<Name>, result: seq<Name>, visiting: set<Name>)
    requires (forall v <- visiting, a <- names :: Reaches(g, v, a)) && !VisitAll(g, names, result, visiting).Closed?
    ensures var closing := VisitAll(g, names, result, visiting);
            Explains(g, closing) && ReachedFrom(g, names, closing.name)
    decreases |g.Keys - visiting|, 1 + |names|
  {
    var first := Visit(g, names[0], result, visiting);
    if first.Closed? {
      forall v <- visiting, a <- names[1..] ensures Reaches(g, v, a) {
        assert a in names;
      }
      VisitAllFails(g, names[1..], first.result, visiting);
      var x := VisitAll(g, names, result, visiting).name;
      var a :| a in names[1..] && (a == x || Reaches(g, a, x));
      assert a in names;
    } else {
      VisitFails(g, names[0], result, visiting);
      assert names[0] in names;
    }
  }

  /**
   The closure succeeds exactly when nothing reachable from the edges is
   unknown or on a cycle; it is then everything reachable, each package
   once, its dependencies before it. When it fails it names such a package.
   */
  lemma ClosureIsReachable(g: Graph, edges: seq<Name>)
    ensures InternalClosure(g, edges).Closed? <==> forall x :: ReachedFrom(g, edges, x) ==> !Blocks(g, x)
    ensures InternalClosure(g, edges).Closed? ==>
              var r := InternalClosure(g, edges).result;
              DependenciesFirst(g, r) && forall x :: x in r <==> ReachedFrom(g, edges, x)
    ensures !InternalClosure(g, edges).Closed? ==>
              var closing := InternalClosure(g, edges);
              Explains(g, closing) && ReachedFrom(g, edges, closing.name)
  {
    var closing := InternalClosure(g, edges);
    if closing.Closed? {
      var r := closing.result;
      VisitAllAdds(g, edges, [], {});
      assert r[0..] == r;
      forall x | ReachedFrom(g, edges, x) ensures x in r && !Blocks(g, x) {
        MemberOf(g, edges, r, x);
        var i :| 0 <= i < |r| && r[i] == x;
        if Reaches(g, x, x) {
          var n: nat :| 0 < n && ReachesIn(g, x, x, n);
          ReachedBefore(g, r, i, x, n);
        }
      }
    } else {
      VisitAllFails(g, edges, [], {});
    }
  }

  lemma MemberOf(g: Graph, edges: seq<Name>, r: seq<Name>, x: Name)
    requires Adds(g, edges, [], {}, r) && ReachedFrom(g, edges, x)
    ensures x in r
  {
    var a :| a in edges && (a == x || Reaches(g, a, x));
    assert a in r;
    if a != x {
      var i :| 0 <= i < |r| && r[i] == a;
      var n: nat :| 0 < n && ReachesIn(g, a, x, n);
      ReachedBefore(g, r, i, x, n);
    }
  }

  // Layers.

  /** Every edge to a known package leads to a lower layer. */
  ghost predicate LayersDrop(g: Graph, layers: map<Name, int>) {
    g.Keys <= layers.Keys && forall a <- g, b <- g[a] :: b in g ==> layers[b] < layers[a]
  }

  lemma {:induction false} ReachedIsLower(g: Graph, layers: map<Name, int>, a: Name, b: Name, n: nat)
    requires LayersDrop(g, layers) && a in g && 0 < n && ReachesIn(g, a, b, n)
    ensures b in g ==> layers[b] < layers[a]
    decreases n
  {
    var c :| c in g[a] && ReachesIn(g, c, b, n - 1);
    if n > 1 {
      ReachedIsLower(g, layers, c, b, n - 1);
    }
  }

  /**
   Once the layers are checked, the closure of a known package fails only
   for a package not known; it lies in lower layers.
   */
  lemma LayeredCloses(g: Graph, layers: map<Name, int>, name: Name)
    requires LayersDrop(g, layers) && name in g
    ensures var closing := InternalClosure(g, g[name]);
            && (closing.Closed? <==> forall x :: ReachedFrom(g, g[name], x) ==> x in g)
            && (closing.Closed? ==> forall x <- closing.result :: x in g && layers[x] < layers[name])
  {
    ClosureIsReachable(g, g[name]);
    forall x | ReachedFrom(g, g[name], x) && x in g ensures layers[x] < layers[name] && !Blocks(g, x) {
      var a :| a in g[name] && (a == x || Reaches(g, a, x));
      EdgeReaches(g, name, a);
      ReachesTransitively(g, name, a, x);
      var n: nat :| 0 < n && ReachesIn(g, name, x, n);
      ReachedIsLower(g, layers, name, x, n);
      if Reaches(g, x, x) {
        var m: nat :| 0 < m && ReachesIn(g, x, x, m);
        ReachedIsLower(g, layers, x, x, m);
      }
    }
  }

  /** When every edge is to a known package, so is everything reachable. */
  lemma {:induction false} ReachedIsKnown(g: Graph, a: Name, b: Name, n: nat)
    requires (forall c <- g, d <- g[c] :: d in g) && a in g && ReachesIn(g, a, b, n)
    ensures b in g
    decreases n
  {
    if n > 0 {
      var c :| c in g[a] && ReachesIn(g, c, b, n - 1);
      ReachedIsKnown(g, c, b, n - 1);
    }
  }
}

/** The closure as it runs. */
module ClosureBuilding {
  import opened Records
  import opened InternalClosures

  /** `internal_closure`'s variables. */
  class ClosureBuilder {
    const entries: Graph
    var result: seq<Name>
    var visiting: set<Name>

    constructor (entries: Graph)
      ensures this.entries == entries && result == [] && visiting == {}
    {
      this.entries, result, visiting := entries, [], {};
    }

    /** `visit`. A failure, once raised, ends the whole closure. */
    method Visit(name: Name) returns (failure: Option<Closing>)
      modifies this
      ensures var closing := InternalClosures.Visit(entries, name, old(result), old(visiting));
              if closing.Closed? then failure.None? && result == closing.result && visiting == old(visiting)
              else failure == Some(closing)
      decreases |entries.Keys - visiting|, 0
    {
      if name in result {
        return None;
      }
      if name in visiting {
        return Some(Cycle(name));
      }
      if name !in entries {
        return Some(Unknown(name));
      }
      assert entries.Keys - (visiting + {name}) == entries.Keys - visiting - {name};
      visiting := visiting + {name};
      failure := VisitEach(entries[name]);
      if failure.Some? {
        return;
      }
      visiting := visiting - {name};
      result := result + [name];
    }

    /** The loop over the edges of one package. */
    method VisitEach(names: seq<Name>) returns (failure: Option<Closing>)
      modifies this
      ensures var closing := VisitAll(entries, names, old(result), old(visiting));
              if closing.Closed? then failure.None? && result == closing.result && visiting == old(visiting)
              else failure == Some(closing)
      decreases |entries.Keys - visiting|, 1
    {
      for i := 0 to |names|
        invariant visiting == old(visiting)
        invariant VisitAll(entries, names[i..], result, visiting) ==
                  VisitAll(entries, names, old(result), old(visiting))
      {
        assert names[i..][1..] == names[i + 1..];
        failure := Visit(names[i]);
        if failure.Some? {
          return;
        }
      }
      return None;
    }
  }

  method BuildClosure(entries: Graph, edges: seq<Name>) returns (closing: Closing)
    ensures closing == InternalClosure(entries, edges)
  {
    var builder := new ClosureBuilder(entries);
    var failure := builder.VisitEach(edges);
    closing := if failure.Some? then failure.value else Closed(builder.result);
  }
}
