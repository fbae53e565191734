/**
 The release plan: what its validation accepts of edges and layers, and a
 build in the order of layers, which never lacks an artifact.
 */
module ReleasePlans {
  import opened Records
  import opened OrderedMaps
  import opened InternalClosures
  import StableSorts

  datatype Role = Publishable | Marketplace | OtherRole

  datatype Entry = Entry(id: string, name: Name, role: Role, layer: int, edges: seq<Name>)

  datatype Plan = Plan(npm: seq<Entry>, python: seq<Entry>)

  function NamesOf(entries: seq<Entry>): (names: seq<Name>)
    ensures |names| == |entries| && forall i :: 0 <= i < |names| ==> names[i] == entries[i].name
  {
    seq(|entries|, i requires 0 <= i < |entries| => entries[i].name)
  }

  predicate IsPublishable(entry: Entry) {
    entry.role.Publishable?
  }

  predicate IsReleased(entry: Entry) {
    entry.role.Publishable? || entry.role.Marketplace?
  }

  /** `release_entries`. */
  function ReleaseEntries(plan: Plan): seq<Entry> {
    Filter(plan.npm, IsReleased) + Filter(plan.python, IsPublishable)
  }

  /** What is released: npm packages to publish or for a marketplace, and Python packages to publish. */
  predicate InRelease(plan: Plan, entry: Entry) {
    || (entry in plan.npm && (entry.role == Publishable || entry.role == Marketplace))
    || (entry in plan.python && entry.role == Publishable)
  }

  /** Whatever is to be published, or is for a marketplace, depends on released packages only. */
  ghost predicate EdgesReleased(plan: Plan) {
    var all := plan.npm + plan.python;
    forall entry <- all, edge <- entry.edges ::
      entry.role == Publishable || entry.role == Marketplace ==>
        exists other <- all :: InRelease(plan, other) && other.name == edge
  }

  /** Each released package's dependencies are released in lower layers. */
  ghost predicate LayersDescend(plan: Plan) {
    var all := plan.npm + plan.python;
    forall entry <- all, edge <- entry.edges ::
      InRelease(plan, entry) ==>
        exists lower <- all :: InRelease(plan, lower) && lower.name == edge && lower.layer < entry.layer
  }

  /** What `validate_plan` demands of names, edges and layers. */
  ghost predicate Checked(plan: Plan) {
    var all := plan.npm + plan.python;
    && NoDup(NamesOf(all))
    && (forall entry <- all, edge <- entry.edges :: edge in NamesOf(all))
    && EdgesReleased(plan) && LayersDescend(plan)
  }

  lemma ReleaseIs(plan: Plan)
    ensures forall e :: e in ReleaseEntries(plan) <==> InRelease(plan, e)
    ensures forall e :: InRelease(plan, e) ==> e in plan.npm + plan.python
  {
    var npm, python := Filter(plan.npm, IsReleased), Filter(plan.python, IsPublishable);
    assert forall e :: e in npm + python <==> e in npm || e in python;
  }

  /** The last entry's layer for each name, as the dictionary of layers is filled. */
  function LayersOf(entries: seq<Entry>): (layers: map<Name, int>)
    ensures forall name :: name in layers <==> name in NamesOf(entries)
    ensures forall name <- layers :: exists entry <- entries :: entry.name == name && entry.layer == layers[name]
  {
    if entries == [] then map[]
    else
      var init, last := entries[..|entries| - 1], entries[|entries| - 1];
      assert entries == init + [last];
      assert forall name :: name in NamesOf(entries) <==> name in NamesOf(init) || name == last.name by {
        assert NamesOf(entries) == NamesOf(init) + [last.name];
      }
      LayersOf(init)[last.name := last.layer]
  }

  /** `a` comes before `b` in the order of code points, or is `b`. */
  predicate TextLe(a: string, b: string)
    decreases |a|
  {
    a == [] || (b != [] && (a[0] < b[0] || (a[0] == b[0] && TextLe(a[1..], b[1..]))))
  }

  /** A prefix of `b`, or smaller where the two first differ. */
  ghost predicate TextNoLater(a: string, b: string) {
    a <= b || exists i :: 0 <= i < |a| && i < |b| && a[..i] == b[..i] && a[i] < b[i]
  }

  lemma {:induction false} TextLeIs(a: string, b: string)
    ensures TextLe(a, b) <==> TextNoLater(a, b)
    decreases |a|
  {
    if a != [] && b != [] && a[0] == b[0] {
      TextLeIs(a[1..], b[1..]);
      if i :| 0 <= i < |a| - 1 && i < |b| - 1 && a[1..][..i] == b[1..][..i] && a[1..][i] < b[1..][i] {
        assert a[..i + 1] == [a[0]] + a[1..][..i] && b[..i + 1] == [b[0]] + b[1..][..i];
        assert a[i + 1] < b[i + 1];
      }
      if i :| 0 <= i < |a| && i < |b| && a[..i] == b[..i] && a[i] < b[i] {
        assert 0 < i && a[1..][..i - 1] == a[..i][1..] && b[1..][..i - 1] == b[..i][1..];
        assert a[1..][i - 1] < b[1..][i - 1];
      }
      if a[1..] <= b[1..] {
        assert a == [a[0]] + a[1..] && b == [b[0]] + b[1..];
      }
      if a <= b {
        assert a[1..] <= b[1..];
      }
    }
  }

  /** The order of the build: by layer, then by id. */
  predicate BuiltBefore(a: Entry, b: Entry) {
    a.layer < b.layer || (a.layer == b.layer && TextLe(a.id, b.id))
  }

  /** `sorted`, by layer and id. */
  function Sorted(entries: seq<Entry>): seq<Entry> {
    StableSorts.Sorted(entries, BuiltBefore)
  }

  /** `select_publishable_entries` of npm, with no package ids given. */
  function SelectNpm(plan: Plan): seq<Entry> {
    Sorted(Filter(plan.npm, IsPublishable))
  }

  ghost predicate InLayers(entries: seq<Entry>) {
    forall i, j :: 0 <= i < j < |entries| ==> entries[i].layer <= entries[j].layer
  }

  lemma {:induction false} TextOrders(a: string, b: string, c: string)
    ensures TextLe(a, b) || TextLe(b, a)
    ensures TextLe(a, b) && TextLe(b, c) ==> TextLe(a, c)
    decreases |a|
  {
    if a != [] && b != [] {
      TextOrders(a[1..], b[1..], if c == [] then [] else c[1..]);
    }
  }

  lemma BuildOrders()
    ensures StableSorts.Orders(BuiltBefore)
  {
    forall a: Entry, b: Entry ensures BuiltBefore(a, b) || BuiltBefore(b, a) {
      TextOrders(a.id, b.id, []);
    }
    forall a: Entry, b: Entry, c: Entry | BuiltBefore(a, b) && BuiltBefore(b, c) ensures BuiltBefore(a, c) {
      TextOrders(a.id, b.id, c.id);
    }
  }

  /** The build order: by layer, then by id, with the entries given and no others. */
  lemma SortedInLayers(entries: seq<Entry>)
    ensures InLayers(Sorted(entries))
    ensures var s := Sorted(entries);
            forall i, j :: 0 <= i < j < |s| && s[i].layer == s[j].layer ==> TextNoLater(s[i].id, s[j].id)
    ensures multiset(Sorted(entries)) == multiset(entries) && forall e :: e in Sorted(entries) <==> e in entries
  {
    BuildOrders();
    StableSorts.SortedSorts(entries, BuiltBefore);
    var sorted := Sorted(entries);
    forall i, j | 0 <= i < j < |sorted|
      ensures sorted[i].layer <= sorted[j].layer
              && (sorted[i].layer == sorted[j].layer ==> TextNoLater(sorted[i].id, sorted[j].id)) {
      assert BuiltBefore(sorted[i], sorted[j]);
      TextLeIs(sorted[i].id, sorted[j].id);
    }
    hide Sorted, TextNoLater, TextLe;
  }

  /** `entries_by_name`, as far as the closure reads it: each entry's edges. */
  function GraphOf(entries: seq<Entry>): (g: Graph)
    ensures forall name :: name in g <==> name in NamesOf(entries)
    ensures forall name <- g :: exists entry <- entries :: entry.name == name && entry.edges == g[name]
  {
    if entries == [] then map[]
    else
      var init, last := entries[..|entries| - 1], entries[|entries| - 1];
      assert entries == init + [last];
      assert NamesOf(entries) == NamesOf(init) + [last.name];
      GraphOf(init)[last.name := last.edges]
  }

  /** Every edge of an npm package to be published is to another one. */
  ghost predicate EdgesStayNpm(plan: Plan) {
    forall entry <- plan.npm, edge <- entry.edges ::
      entry.role == Publishable ==> exists other <- plan.npm :: other.role == Publishable && other.name == edge
  }

  // The names of a checked plan tell its entries apart.

  lemma SameEntry(plan: Plan, a: Entry, b: Entry)
    requires NoDup(NamesOf(plan.npm + plan.python)) && a in plan.npm + plan.python && b in plan.npm + plan.python
    requires a.name == b.name
    ensures a == b
  {
    var all := plan.npm + plan.python;
    var i :| 0 <= i < |all| && all[i] == a;
    var j :| 0 <= j < |all| && all[j] == b;
    assert NamesOf(all)[i] == NamesOf(all)[j];
  }

  lemma Selected(plan: Plan)
    ensures InLayers(SelectNpm(plan))
    ensures forall e :: e in SelectNpm(plan) <==> e in plan.npm && e.role == Publishable
  {
    SortedInLayers(Filter(plan.npm, IsPublishable));
  }

  lemma NameOfEntry(entries: seq<Entry>, name: Name)
    ensures name in NamesOf(entries) <==> exists e <- entries :: e.name == name
  {
    if name in NamesOf(entries) {
      var i :| 0 <= i < |entries| && NamesOf(entries)[i] == name;
      assert entries[i] in entries;
    } else {
      forall e <- entries ensures e.name != name {
        var i :| 0 <= i < |entries| && entries[i] == e;
        assert NamesOf(entries)[i] == e.name;
      }
    }
  }

  lemma GraphAt(plan: Plan, e: Entry)
    requires NoDup(NamesOf(plan.npm + plan.python)) && e in SelectNpm(plan)
    ensures e.name in GraphOf(SelectNpm(plan)) && GraphOf(SelectNpm(plan))[e.name] == e.edges
  {
    var entries := SelectNpm(plan);
    Selected(plan);
    NameOfEntry(entries, e.name);
    var other :| other in entries && other.name == e.name && other.edges == GraphOf(entries)[e.name];
    SameEntry(plan, e, other);
  }

  lemma LayerAt(plan: Plan, e: Entry)
    requires NoDup(NamesOf(plan.npm + plan.python)) && e in SelectNpm(plan)
    ensures var layers := LayersOf(SelectNpm(plan)); e.name in layers && layers[e.name] == e.layer
  {
    var entries := SelectNpm(plan);
    Selected(plan);
    NameOfEntry(entries, e.name);
    var other :| other in entries && other.name == e.name && other.layer == LayersOf(entries)[e.name];
    SameEntry(plan, e, other);
  }

  /** The check of the layers is what the closure needs of them. */
  lemma CheckedLayersDrop(plan: Plan)
    requires Checked(plan)
    ensures LayersDrop(GraphOf(SelectNpm(plan)), LayersOf(SelectNpm(plan)))
  {
    var entries := SelectNpm(plan);
    var g, layers := GraphOf(entries), LayersOf(entries);
    Selected(plan);
    forall a <- g, b <- g[a] | b in g ensures layers[b] < layers[a] {
      NameOfEntry(entries, a);
      var e :| e in entries && e.name == a && e.edges == g[a];
      NameOfEntry(entries, b);
      var f :| f in entries && f.name == b && f.edges == g[b];
      assert InRelease(plan, e) && e in plan.npm + plan.python;
      var lower :| lower in plan.npm + plan.python && InRelease(plan, lower) && lower.name == b
        && lower.layer < e.layer;
      SameEntry(plan, f, lower);
      LayerAt(plan, e);
      LayerAt(plan, f);
    }
  }

  /**
   The packages an entry's closure gives were all built before it; it fails
   only for a package that is not built at all.
   */
  lemma ClosureIsBuilt(plan: Plan, k: nat)
    requires Checked(plan) && k < |SelectNpm(plan)|
    ensures var entries, g := SelectNpm(plan), GraphOf(SelectNpm(plan));
            var closing := InternalClosure(g, entries[k].edges);
            && (closing.Closed? <==> forall x :: ReachedFrom(g, entries[k].edges, x) ==> x in g)
            && (closing.Closed? ==> forall x <- closing.result :: exists j :: 0 <= j < k && entries[j].name == x)
  {
    assert NoDup(NamesOf(plan.npm + plan.python));
    hide Checked, SelectNpm, InternalClosure, GraphOf, LayersOf, ReachedFrom, LayersDrop, NoDup;
    var entries := SelectNpm(plan);
    var g, layers := GraphOf(entries), LayersOf(entries);
    GraphAt(plan, entries[k]);
    LayerAt(plan, entries[k]);
    CheckedLayersDrop(plan);
    LayeredCloses(g, layers, entries[k].name);
    var closing := InternalClosure(g, entries[k].edges);
    if closing.Closed? {
      forall x <- closing.result ensures exists j :: 0 <= j < k && entries[j].name == x {
        LowerIsBuilt(plan, k, x);
      }
    }
  }

  lemma LowerIsBuilt(plan: Plan, k: nat, x: Name)
    requires Checked(plan) && k < |SelectNpm(plan)|
    requires var layers := LayersOf(SelectNpm(plan)); x in layers && layers[x] < SelectNpm(plan)[k].layer
    ensures exists j :: 0 <= j < k && SelectNpm(plan)[j].name == x
  {
    assert NoDup(NamesOf(plan.npm + plan.python));
    hide *;
    var entries := SelectNpm(plan);
    Selected(plan);
    NameOfEntry(entries, x);
    var e :| e in entries && e.name == x;
    LayerAt(plan, e);
    var j :| 0 <= j < |entries| && entries[j] == e;
    LowerComesFirst(entries, j, k);
  }

  lemma LowerComesFirst(entries: seq<Entry>, j: nat, k: nat)
    requires InLayers(entries) && j < |entries| && k < |entries| && entries[j].layer < entries[k].layer
    ensures j < k
  {}

  /** All closures succeed exactly when no edge leaves the npm packages to be published. */
  lemma ClosuresSucceed(plan: Plan)
    requires Checked(plan)
    ensures var entries := SelectNpm(plan);
            EdgesStayNpm(plan) <==> forall k :: 0 <= k < |entries| ==>
              InternalClosure(GraphOf(entries), entries[k].edges).Closed?
  {
    assert NoDup(NamesOf(plan.npm + plan.python));
    hide Checked, SelectNpm, InternalClosure, GraphOf, NoDup;
    var entries := SelectNpm(plan);
    var g := GraphOf(entries);
    Selected(plan);
    if EdgesStayNpm(plan) {
      forall c <- g, d <- g[c] ensures d in g {
        var e :| e in entries && e.name == c && e.edges == g[c];
        var other :| other in plan.npm && other.role == Publishable && other.name == d;
        NameOfEntry(entries, d);
      }
      forall k | 0 <= k < |entries| ensures InternalClosure(g, entries[k].edges).Closed? {
        ClosureIsBuilt(plan, k);
        GraphAt(plan, entries[k]);
        forall x | ReachedFrom(g, entries[k].edges, x) ensures x in g {
          var a :| a in entries[k].edges && (a == x || Reaches(g, a, x));
          if a != x {
            var n: nat :| 0 < n && ReachesIn(g, a, x, n);
            ReachedIsKnown(g, a, x, n);
          }
        }
      }
    } else {
      var entry, edge :| entry in plan.npm && edge in entry.edges && entry.role == Publishable
                         && forall other <- plan.npm :: !(other.role == Publishable && other.name == edge);
      assert entry in entries;
      var k :| 0 <= k < |entries| && entries[k] == entry;
      NameOfEntry(entries, edge);
      assert ReachedFrom(g, entries[k].edges, edge);
      ClosureIsBuilt(plan, k);
    }
  }
}

/** The validation and the build as they run. */
module ReleaseBuilding {
  import opened Records
  import opened OrderedMaps
  import opened InternalClosures
  import opened ClosureBuilding
  import opened ReleasePlans

  /** The loop of `validate_plan` over all entries, as far as names go. */
  method NamesDiffer(entries: seq<Entry>) returns (ok: bool)
    ensures ok <==> NoDup(NamesOf(entries))
  {
    var names: set<Name> := {};
    for i := 0 to |entries|
      invariant names == set j | 0 <= j < i :: entries[j].name
      invariant NoDup(NamesOf(entries[..i]))
    {
      if entries[i].name in names {
        var j :| 0 <= j < i && entries[j].name == entries[i].name;
        assert NamesOf(entries)[j] == NamesOf(entries)[i];
        return false;
      }
      names := names + {entries[i].name};
      assert forall j :: 0 <= j < i ==> NamesOf(entries[..i + 1])[j] == NamesOf(entries[..i])[j];
    }
    assert entries[..|entries|] == entries;
    return true;
  }

  /** The checks of the edges and of the layers, for one list of entries. */
  method EdgesKnown(entries: seq<Entry>, names: set<Name>) returns (ok: bool)
    ensures ok <==> forall entry <- entries, edge <- entry.edges :: edge in names
  {
    for i := 0 to |entries|
      invariant forall j :: 0 <= j < i ==> forall edge <- entries[j].edges :: edge in names
    {
      for k := 0 to |entries[i].edges|
        invariant forall m :: 0 <= m < k ==> entries[i].edges[m] in names
      {
        if entries[i].edges[k] !in names {
          assert entries[i] in entries && entries[i].edges[k] in entries[i].edges;
          return false;
        }
      }
    }
    return true;
  }

  method LayersLower(entries: seq<Entry>, layers: map<Name, int>) returns (ok: bool)
    requires forall entry <- entries :: entry.name in layers && forall edge <- entry.edges :: edge in layers
    ensures ok <==> forall entry <- entries, edge <- entry.edges :: layers[edge] < layers[entry.name]
  {
    for i := 0 to |entries|
      invariant forall j :: 0 <= j < i ==> forall edge <- entries[j].edges :: layers[edge] < layers[entries[j].name]
    {
      for k := 0 to |entries[i].edges|
        invariant forall m :: 0 <= m < k ==> layers[entries[i].edges[m]] < layers[entries[i].name]
      {
        if layers[entries[i].edges[k]] >= layers[entries[i].name] {
          assert entries[i] in entries && entries[i].edges[k] in entries[i].edges;
          return false;
        }
      }
    }
    return true;
  }

  function NameSet(entries: seq<Entry>): (names: set<Name>)
    ensures forall name :: name in names <==> name in NamesOf(entries)
  {
    set name | name in NamesOf(entries)
  }

  /** `validate_plan`, as far as names, edges and layers go. */
  method ValidatePlan(plan: Plan) returns (ok: bool)
    ensures ok <==> Checked(plan)
  {
    var all, release := plan.npm + plan.python, ReleaseEntries(plan);
    var differ := NamesDiffer(all);
    if !differ {
      return false;
    }
    var known := EdgesKnown(all, NameSet(all));
    if !known {
      return false;
    }
    var released := EdgesKnown(Filter(all, IsReleased), NameSet(release));
    hide Filter, LayersOf, ReleaseEntries, NoDup, EdgesReleased, LayersDescend;
    ReleasedAre(plan);
    if !released {
      return false;
    }
    var layers := LayersOf(release);
    LayersAre(plan);
    ok := LayersLower(release, layers);
  }

  /** The check of the edges asks what it is to ask, and makes sure that the layers can be looked up. */
  lemma ReleasedAre(plan: Plan)
    ensures var all, release := plan.npm + plan.python, ReleaseEntries(plan);
            && (EdgesReleased(plan) <==>
                forall entry <- Filter(all, IsReleased), edge <- entry.edges :: edge in NamesOf(release))
            && (EdgesReleased(plan) ==> forall entry <- release ::
                  entry.name in LayersOf(release) && forall edge <- entry.edges :: edge in LayersOf(release))
  {
    var all, release := plan.npm + plan.python, ReleaseEntries(plan);
    ReleaseIs(plan);
    assert forall e :: e in Filter(all, IsReleased) <==> e in all && (e.role == Publishable || e.role == Marketplace);
    forall e <- release ensures e in Filter(all, IsReleased) && e.name in NamesOf(release) {
      NameOfEntry(release, e.name);
    }
    hide LayersOf, Filter, ReleaseEntries, NamesOf;
    if EdgesReleased(plan) {
      forall entry <- Filter(all, IsReleased), edge <- entry.edges ensures edge in NamesOf(release) {
        NameReleased(plan, edge);
      }
    }
    if forall entry <- Filter(all, IsReleased), edge <- entry.edges :: edge in NamesOf(release) {
      forall entry <- all, edge <- entry.edges | entry.role == Publishable || entry.role == Marketplace
        ensures exists other <- all :: InRelease(plan, other) && other.name == edge {
        assert entry in Filter(all, IsReleased);
        NameReleased(plan, edge);
      }
    }
  }

  lemma NameReleased(plan: Plan, name: Name)
    ensures name in NamesOf(ReleaseEntries(plan)) <==>
            exists e <- plan.npm + plan.python :: InRelease(plan, e) && e.name == name
  {
    ReleaseIs(plan);
    NameOfEntry(ReleaseEntries(plan), name);
    hide ReleaseEntries, NamesOf, InRelease;
  }

  lemma LayersAre(plan: Plan)
    requires NoDup(NamesOf(plan.npm + plan.python)) && EdgesReleased(plan)
    requires forall entry <- ReleaseEntries(plan) ::
               entry.name in LayersOf(ReleaseEntries(plan))
               && forall edge <- entry.edges :: edge in LayersOf(ReleaseEntries(plan))
    ensures var release := ReleaseEntries(plan);
            LayersDescend(plan) <==> forall entry <- release, edge <- entry.edges ::
              LayersOf(release)[edge] < LayersOf(release)[entry.name]
  {
    var release := ReleaseEntries(plan);
    LayersTell(plan);
    ReleaseIs(plan);
    forall name | name in LayersOf(release)
      ensures exists e <- release :: e.name == name && e.layer == LayersOf(release)[name] {}
    hide LayersOf, ReleaseEntries, InRelease, NamesOf, EdgesReleased;
    if LayersDescend(plan) {
      forall entry <- release, edge <- entry.edges ensures LayersOf(release)[edge] < LayersOf(release)[entry.name] {
        var lower :| lower in plan.npm + plan.python && InRelease(plan, lower) && lower.name == edge
                     && lower.layer < entry.layer;
        assert lower in release;
      }
    }
  }

  /** The dictionary of layers holds each released entry's own layer. */
  lemma LayersTell(plan: Plan)
    requires NoDup(NamesOf(plan.npm + plan.python))
    ensures var release := ReleaseEntries(plan);
            forall e <- release :: e.name in LayersOf(release) && LayersOf(release)[e.name] == e.layer
  {
    var release := ReleaseEntries(plan);
    forall e <- release ensures e.name in LayersOf(release) && LayersOf(release)[e.name] == e.layer {
      ReleaseIs(plan);
      NameOfEntry(release, e.name);
      var other :| other in release && other.name == e.name && other.layer == LayersOf(release)[e.name];
      SameEntry(plan, e, other);
    }
  }

  /** `artifact` is that of the package `name`, one of the first `k` entries. */
  ghost predicate BuiltBy(entries: seq<Entry>, pack: Entry -> string, k: nat, name: Name, artifact: string)
    requires k <= |entries|
  {
    exists j :: 0 <= j < k && entries[j].name == name && pack(entries[j]) == artifact
  }

  /** What an entry's install is given: the artifacts of its closure, in its order. */
  ghost predicate Installs(plan: Plan, pack: Entry -> string, k: nat, install: seq<string>)
    requires k < |SelectNpm(plan)|
  {
    var entries := SelectNpm(plan);
    var closing := InternalClosure(GraphOf(entries), entries[k].edges);
    && closing.Closed? && |install| == |closing.result|
    && forall i :: 0 <= i < |install| ==> BuiltBy(entries, pack, k, closing.result[i], install[i])
  }

  /** The loop over a closure: each name's artifact. */
  method TarballsOf(names: seq<Name>, tarballs: map<Name, string>) returns (install: seq<string>)
    requires forall name <- names :: name in tarballs
    ensures |install| == |names| && forall i :: 0 <= i < |names| ==> install[i] == tarballs[names[i]]
  {
    install := [];
    for i := 0 to |names|
      invariant |install| == i && forall m :: 0 <= m < i ==> install[m] == tarballs[names[m]]
    {
      install := install + [tarballs[names[i]]];
    }
  }

  /**
   `build_npm` of the whole plan: with a checked plan, no artifact is ever
   looked up before it was built, and the build fails exactly when an edge
   leaves the npm packages to be published.
   */
  method BuildNpm(plan: Plan, pack: Entry -> string) returns (installs: Option<seq<seq<string>>>)
    requires Checked(plan)
    ensures installs.Some? <==> EdgesStayNpm(plan)
    ensures installs.Some? ==>
              && |installs.value| == |SelectNpm(plan)|
              && forall k :: 0 <= k < |installs.value| ==> Installs(plan, pack, k, installs.value[k])
  {
    hide Checked, EdgesStayNpm, InternalClosure, SelectNpm, GraphOf;
    var entries := SelectNpm(plan);
    var g := GraphOf(entries);
    ClosuresSucceed(plan);
    var tarballs: map<Name, string> := map[];
    var done: seq<seq<string>> := [];
    for k := 0 to |entries|
      invariant |done| == k && forall j :: 0 <= j < k ==> Installs(plan, pack, j, done[j])
      invariant forall j :: 0 <= j < k ==> entries[j].name in tarballs
      invariant forall name <- tarballs :: BuiltBy(entries, pack, k, name, tarballs[name])
    {
      ClosureIsBuilt(plan, k);
      var closing := BuildClosure(g, entries[k].edges);
      if !closing.Closed? {
        return None;
      }
      forall name <- closing.result ensures name in tarballs {
        var j :| 0 <= j < k && entries[j].name == name;
      }
      var install := TarballsOf(closing.result, tarballs);
      assert Installs(plan, pack, k, install);
      done := done + [install];
      tarballs := tarballs[entries[k].name := pack(entries[k])];
    }
    forall k | 0 <= k < |entries| ensures InternalClosure(g, entries[k].edges).Closed? {
      assert Installs(plan, pack, k, done[k]);
    }
    return Some(done);
  }
}
