/**
 The Codex session manager: which discovered sessions it exposes, under
 which names, and when a session that is gone is stopped. One reconcile
 after another, each with whatever was discovered and whatever failed.
 */
module SessionManagers {
  import opened Records
  import opened OrderedMaps

  datatype Key = Key(text: string)
  datatype Alias = Alias(text: string)

  /** An eligible session as discovered, with the public alias its identity derives. */
  datatype Row = Row(key: Key, alias: Alias)

  datatype Running = Running(alias: Alias, stale: bool, misses: nat)

  datatype Config = Config(exposeCurrent: bool, exposeFuture: bool, grace: real)

  datatype Manager = Manager(
    running: OMap<Key, Running>,
    baseline: set<Key>,
    exposed: set<Key>,
    remembered: map<Key, Alias>)

  const EMPTY := Manager(OrderedMaps.Empty(), {}, {}, map[])

  /** A manager after a step, and whether the step threw nothing. */
  datatype Step = Step(m: Manager, ok: bool)

  /** What one reconcile finds: the rows, and whether each start and each stop would succeed. */
  datatype Pass = Pass(rows: seq<Row>, starts: Key -> bool, stops: Key -> bool)

  /** No alias is derived for two different sessions. */
  predicate NoCollision(rows: seq<Row>) {
    forall i, j :: 0 <= i < j < |rows| && rows[i].alias == rows[j].alias ==> rows[i].key == rows[j].key
  }

  function AliasesOf(rows: seq<Row>): (aliases: map<Key, Alias>)
    ensures forall k :: k in aliases <==> exists row <- rows :: row.key == k
  {
    if rows == [] then map[]
    else
      var init, last := rows[..|rows| - 1], rows[|rows| - 1];
      assert rows == init + [last];
      AliasesOf(init)[last.key := last.alias]
  }

  function Wanted(rows: seq<Row>): set<Key> {
    set row <- rows :: row.key
  }

  /** `#shouldExposeRow`. */
  predicate Exposes(c: Config, m: Manager, key: Key) {
    c.exposeCurrent || (c.exposeFuture && (key in m.exposed || key !in m.baseline))
  }

  /** The name a session goes by: the one remembered, or the one allocated now. */
  function NameOf(m: Manager, key: Key, derived: Alias): Alias {
    if key in m.remembered then m.remembered[key] else derived
  }

  /** One row of the first loop of `reconcile`. */
  function TakeRow(c: Config, m: Manager, row: Row, aliases: map<Key, Alias>, seedOnly: bool, starts: Key -> bool): Step
    requires row.key in aliases
  {
    var key := row.key;
    if key in m.running.vals then
      var running := m.running.vals[key];
      Step(m.(remembered := m.remembered[key := running.alias],
              running := Put(m.running, key, running.(stale := false, misses := 0))), true)
    else
      var alias := NameOf(m, key, aliases[key]);
      var named := m.(remembered := m.remembered[key := alias]);
      if seedOnly || !Exposes(c, m, key) then Step(named.(baseline := m.baseline + {key}), true)
      else if starts(key) then
        Step(named.(exposed := m.exposed + {key}, running := Put(m.running, key, Running(alias, false, 0))), true)
      else Step(named, false)
  }

  function TakeRows(c: Config, m: Manager, rows: seq<Row>, aliases: map<Key, Alias>, seedOnly: bool,
                    starts: Key -> bool): Step
    requires forall row <- rows :: row.key in aliases
  {
    if rows == [] then Step(m, true)
    else
      var before := TakeRows(c, m, rows[..|rows| - 1], aliases, seedOnly, starts);
      if before.ok then TakeRow(c, before.m, rows[|rows| - 1], aliases, seedOnly, starts) else before
  }

  /** A running session that was not discovered: stale, or, once its grace is over, stopped. */
  function Age(c: Config, m: Manager, key: Key, stops: Key -> bool): Step
    requires key in m.running.vals
  {
    var running := m.running.vals[key];
    if (running.misses + 1) as real < c.grace then
      Step(m.(running := Put(m.running, key, running.(stale := true, misses := running.misses + 1))), true)
    else
      var named := m.(remembered := m.remembered[key := running.alias]);
      if stops(key) then Step(named.(running := Delete(m.running, key)), true) else Step(named, false)
  }

  /** The second loop of `reconcile`, over the sessions running when it begins. */
  function AgeAll(c: Config, m: Manager, keys: seq<Key>, wanted: set<Key>, stops: Key -> bool): Step {
    if keys == [] then Step(m, true)
    else
      var before := AgeAll(c, m, keys[..|keys| - 1], wanted, stops);
      var key := keys[|keys| - 1];
      if before.ok && key !in wanted && key in before.m.running.vals then Age(c, before.m, key, stops) else before
  }

  /** `reconcile`: what is thrown midway leaves what was done before. */
  function Reconcile(c: Config, m: Manager, pass: Pass, seedOnly: bool): Step {
    if !NoCollision(pass.rows) then Step(m, false)
    else
      var taken := TakeRows(c, m, pass.rows, AliasesOf(pass.rows), seedOnly, pass.starts);
      if !taken.ok then taken
      else AgeAll(c, taken.m, taken.m.running.keys, Wanted(pass.rows), pass.stops)
  }

  // What every reconcile keeps.

  ghost predicate Valid(c: Config, m: Manager) {
    && (forall k <- m.running.vals ::
          var r := m.running.vals[k];
          && k in m.exposed && k in m.remembered && r.alias == m.remembered[k]
          && r.misses as real < c.grace && (r.stale <==> 0 < r.misses))
    && m.baseline !! m.exposed && (c.exposeCurrent ==> m.baseline == {})
  }

  /** Names once remembered stay, and outside the seeding pass nothing joins the baseline. */
  ghost predicate Keeps(m: Manager, n: Manager) {
    && (forall k <- m.remembered :: k in n.remembered && n.remembered[k] == m.remembered[k])
    && n.baseline == m.baseline && m.exposed <= n.exposed
  }

  lemma TakeRowKeeps(c: Config, m: Manager, row: Row, aliases: map<Key, Alias>, starts: Key -> bool)
    requires Valid(c, m) && 0.0 < c.grace && row.key in aliases && (c.exposeCurrent || c.exposeFuture)
    ensures var s := TakeRow(c, m, row, aliases, false, starts); Valid(c, s.m) && Keeps(m, s.m)
  {}

  lemma AgeKeeps(c: Config, m: Manager, key: Key, stops: Key -> bool)
    requires Valid(c, m) && key in m.running.vals
    ensures var s := Age(c, m, key, stops); Valid(c, s.m) && Keeps(m, s.m)
  {}

  lemma {:induction false} TakeRowsKeeps(c: Config, m: Manager, rows: seq<Row>, aliases: map<Key, Alias>,
                                         starts: Key -> bool)
    requires Valid(c, m) && 0.0 < c.grace && (c.exposeCurrent || c.exposeFuture)
    requires forall row <- rows :: row.key in aliases
    ensures var s := TakeRows(c, m, rows, aliases, false, starts); Valid(c, s.m) && Keeps(m, s.m)
  {
    if rows != [] {
      var before := TakeRows(c, m, rows[..|rows| - 1], aliases, false, starts);
      TakeRowsKeeps(c, m, rows[..|rows| - 1], aliases, starts);
      TakeRowKeeps(c, before.m, rows[|rows| - 1], aliases, starts);
      hide Valid, TakeRow;
    }
  }

  lemma {:induction false} AgeAllKeeps(c: Config, m: Manager, keys: seq<Key>, wanted: set<Key>, stops: Key -> bool)
    requires Valid(c, m)
    ensures var s := AgeAll(c, m, keys, wanted, stops); Valid(c, s.m) && Keeps(m, s.m)
  {
    if keys != [] {
      var before := AgeAll(c, m, keys[..|keys| - 1], wanted, stops);
      AgeAllKeeps(c, m, keys[..|keys| - 1], wanted, stops);
      if keys[|keys| - 1] in before.m.running.vals {
        AgeKeeps(c, before.m, keys[|keys| - 1], stops);
      }
      hide Valid, Age;
    }
  }

  /** Any reconcile, whatever it finds and wherever it breaks off. */
  lemma ReconcileKeeps(c: Config, m: Manager, pass: Pass)
    requires Valid(c, m) && 0.0 < c.grace && (c.exposeCurrent || c.exposeFuture)
    ensures var s := Reconcile(c, m, pass, false); Valid(c, s.m) && Keeps(m, s.m)
  {
    if NoCollision(pass.rows) {
      var aliases := AliasesOf(pass.rows);
      TakeRowsKeeps(c, m, pass.rows, aliases, pass.starts);
      var taken := TakeRows(c, m, pass.rows, aliases, false, pass.starts);
      AgeAllKeeps(c, taken.m, taken.m.running.keys, Wanted(pass.rows), pass.stops);
      hide Valid, TakeRows, AgeAll;
    }
  }

  // Runs.

  /** Some of the sessions discovered at the start are in the baseline, and none is exposed. */
  ghost predicate Seeded(m: Manager) {
    m.running == OrderedMaps.Empty() && m.exposed == {}
  }

  lemma {:induction false} SeedsOnly(c: Config, rows: seq<Row>, aliases: map<Key, Alias>, starts: Key -> bool)
    requires forall row <- rows :: row.key in aliases
    ensures var s := TakeRows(c, EMPTY, rows, aliases, true, starts);
            Seeded(s.m) && s.m.baseline == Wanted(rows) && s.ok
  {
    if rows != [] {
      var init, last := rows[..|rows| - 1], rows[|rows| - 1];
      assert rows == init + [last];
      SeedsOnly(c, init, aliases, starts);
      assert Wanted(rows) == Wanted(init) + {last.key};
    }
  }

  /** `start`, once it succeeded: the current sessions are exposed, or only noted. */
  function Started(c: Config, pass: Pass): Step {
    Reconcile(c, EMPTY, pass, !c.exposeCurrent)
  }

  function Run(c: Config, passes: seq<Pass>): Manager
    requires passes != []
  {
    if |passes| == 1 then Started(c, passes[0]).m
    else Reconcile(c, Run(c, passes[..|passes| - 1]), passes[|passes| - 1], false).m
  }

  lemma StartedIsValid(c: Config, pass: Pass)
    requires 0.0 < c.grace && (c.exposeCurrent || c.exposeFuture)
    ensures Valid(c, Started(c, pass).m)
    ensures !c.exposeCurrent && Started(c, pass).ok ==> Started(c, pass).m.baseline == Wanted(pass.rows)
  {
    if c.exposeCurrent {
      ReconcileKeeps(c, EMPTY, pass);
    } else if NoCollision(pass.rows) {
      SeedsOnly(c, pass.rows, AliasesOf(pass.rows), pass.starts);
      hide TakeRows;
      assert AgeAll(c, Started(c, pass).m, [], Wanted(pass.rows), pass.stops).ok;
    }
  }

  /**
   Over any reconciles after a start: a name once remembered never changes,
   each running session has fewer misses than its grace and is stale when it
   has some, and the baseline is the start's, none of it ever exposed.
   */
  lemma {:induction false} RunKeeps(c: Config, passes: seq<Pass>)
    requires passes != [] && 0.0 < c.grace && (c.exposeCurrent || c.exposeFuture)
    ensures Valid(c, Run(c, passes)) && Keeps(Run(c, passes[..1]), Run(c, passes))
  {
    if |passes| == 1 {
      StartedIsValid(c, passes[0]);
      assert passes[..1] == passes;
    } else {
      var before := passes[..|passes| - 1];
      RunKeeps(c, before);
      assert before[..1] == passes[..1];
      ReconcileKeeps(c, Run(c, before), passes[|passes| - 1]);
      hide Valid, Reconcile;
    }
  }

  // What one whole reconcile makes of a session.

  /** All that the manager holds of one session. */
  datatype Face = Face(running: Option<Running>, exposed: bool, baseline: bool, name: Option<Alias>)

  function FaceOf(m: Manager, k: Key): Face {
    Face(if k in m.running.vals then Some(m.running.vals[k]) else None,
         k in m.exposed, k in m.baseline,
         if k in m.remembered then Some(m.remembered[k]) else None)
  }

  /** A session discovered by a reconcile that threw nothing: running, with no misses, or left unexposed. */
  function Found(c: Config, f: Face, derived: Alias): Face {
    if f.running.Some? then
      f.(running := Some(Running(f.running.value.alias, false, 0)), name := Some(f.running.value.alias))
    else
      var alias := f.name.GetOr(derived);
      if c.exposeCurrent || (c.exposeFuture && (f.exposed || !f.baseline))
      then Face(Some(Running(alias, false, 0)), true, f.baseline, Some(alias))
      else f.(baseline := true, name := Some(alias))
  }

  /** A session not discovered: stale once more, or, when its grace is over, stopped; its name stays. */
  function Missed(c: Config, f: Face): Face {
    if f.running.None? then f
    else
      var r := f.running.value;
      if (r.misses + 1) as real < c.grace then f.(running := Some(r.(stale := true, misses := r.misses + 1)))
      else f.(running := None, name := Some(r.alias))
  }

  lemma TakeRowTells(c: Config, m: Manager, row: Row, aliases: map<Key, Alias>, starts: Key -> bool, k: Key)
    requires row.key in aliases && TakeRow(c, m, row, aliases, false, starts).ok
    ensures FaceOf(TakeRow(c, m, row, aliases, false, starts).m, k) ==
            if k == row.key then Found(c, FaceOf(m, k), aliases[k]) else FaceOf(m, k)
  {}

  lemma FoundTwice(c: Config, f: Face, derived: Alias)
    requires c.exposeCurrent || c.exposeFuture
    ensures Found(c, Found(c, f, derived), derived) == Found(c, f, derived)
  {}

  lemma {:induction false} TakeRowsTell(c: Config, m: Manager, rows: seq<Row>, aliases: map<Key, Alias>,
                                        starts: Key -> bool, k: Key)
    requires (forall row <- rows :: row.key in aliases) && (c.exposeCurrent || c.exposeFuture)
    requires TakeRows(c, m, rows, aliases, false, starts).ok
    ensures FaceOf(TakeRows(c, m, rows, aliases, false, starts).m, k) ==
            if k in Wanted(rows) then Found(c, FaceOf(m, k), aliases[k]) else FaceOf(m, k)
  {
    if rows != [] {
      var init, last := rows[..|rows| - 1], rows[|rows| - 1];
      assert rows == init + [last];
      assert Wanted(rows) == Wanted(init) + {last.key};
      TakeRowsTell(c, m, init, aliases, starts, k);
      TakeRowTells(c, TakeRows(c, m, init, aliases, false, starts).m, last, aliases, starts, k);
      if last.key == k {
        FoundTwice(c, FaceOf(m, k), aliases[k]);
      }
      hide TakeRow, Found, FaceOf;
    }
  }

  lemma AgeTells(c: Config, m: Manager, key: Key, stops: Key -> bool, k: Key)
    requires key in m.running.vals && Age(c, m, key, stops).ok
    ensures FaceOf(Age(c, m, key, stops).m, k) == if k == key then Missed(c, FaceOf(m, k)) else FaceOf(m, k)
  {}

  lemma {:induction false} AgeAllTells(c: Config, m: Manager, keys: seq<Key>, wanted: set<Key>, stops: Key -> bool,
                                       k: Key)
    requires NoDup(keys) && AgeAll(c, m, keys, wanted, stops).ok
    ensures FaceOf(AgeAll(c, m, keys, wanted, stops).m, k) ==
            if k in keys && k !in wanted then Missed(c, FaceOf(m, k)) else FaceOf(m, k)
  {
    if keys != [] {
      var init, key := keys[..|keys| - 1], keys[|keys| - 1];
      var before := AgeAll(c, m, init, wanted, stops).m;
      assert NoDup(init) && key !in init && (k in keys <==> k in init || k == key);
      AgeAllTells(c, m, init, wanted, stops, k);
      if key in before.running.vals {
        if key !in wanted {
          AgeTells(c, before, key, stops, k);
        }
      } else if key == k {
        assert Missed(c, FaceOf(m, k)) == FaceOf(m, k);
      }
      hide Age, Missed, NoDup;
    }
  }

  /**
   What a reconcile that threw nothing makes of every session: one that was
   discovered runs with no misses, or is left unexposed, and one that was
   not is a miss nearer its stop, or stopped.
   */
  lemma ReconcileTells(c: Config, m: Manager, pass: Pass, k: Key)
    requires Valid(c, m) && (c.exposeCurrent || c.exposeFuture) && Reconcile(c, m, pass, false).ok
    ensures FaceOf(Reconcile(c, m, pass, false).m, k) ==
            if k in Wanted(pass.rows) then Found(c, FaceOf(m, k), AliasesOf(pass.rows)[k])
            else Missed(c, FaceOf(m, k))
  {
    var aliases := AliasesOf(pass.rows);
    var taken := TakeRows(c, m, pass.rows, aliases, false, pass.starts);
    TakeRowsTell(c, m, pass.rows, aliases, pass.starts, k);
    AgeAllTells(c, taken.m, taken.m.running.keys, Wanted(pass.rows), pass.stops, k);
    hide TakeRows, AgeAll, Valid;
  }

  /** `n` reconciles in a row that threw nothing and did not find `k`. */
  ghost predicate MissedIn(c: Config, m: Manager, passes: seq<Pass>, k: Key)
    decreases passes
  {
    passes == [] ||
    (k !in Wanted(passes[0].rows) && Reconcile(c, m, passes[0], false).ok
     && MissedIn(c, Reconcile(c, m, passes[0], false).m, passes[1..], k))
  }

  function After(c: Config, m: Manager, passes: seq<Pass>): Manager
    decreases passes
  {
    if passes == [] then m else After(c, Reconcile(c, m, passes[0], false).m, passes[1..])
  }

  /** A session found last is kept through every miss short of its grace, and stopped at the first that reaches it. */
  lemma {:induction false} StoppedWhenGraceIsOver(c: Config, m: Manager, passes: seq<Pass>, k: Key)
    requires Valid(c, m) && 0.0 < c.grace && (c.exposeCurrent || c.exposeFuture)
    requires k in m.running.vals && MissedIn(c, m, passes, k)
    ensures var n := After(c, m, passes);
            && (k in n.running.vals <==> passes == [] || (m.running.vals[k].misses + |passes|) as real < c.grace)
            && (k in n.running.vals ==> n.running.vals[k].misses == m.running.vals[k].misses + |passes|)
    decreases passes
  {
    if passes != [] {
      var n := Reconcile(c, m, passes[0], false).m;
      ReconcileKeeps(c, m, passes[0]);
      ReconcileTells(c, m, passes[0], k);
      hide Valid, Reconcile;
      if k in n.running.vals {
        StoppedWhenGraceIsOver(c, n, passes[1..], k);
      } else {
        StaysStopped(c, n, passes[1..], k);
      }
    }
  }

  lemma {:induction false} StaysStopped(c: Config, m: Manager, passes: seq<Pass>, k: Key)
    requires Valid(c, m) && 0.0 < c.grace && (c.exposeCurrent || c.exposeFuture)
    requires k !in m.running.vals && MissedIn(c, m, passes, k)
    ensures k !in After(c, m, passes).running.vals
    decreases passes
  {
    if passes != [] {
      ReconcileKeeps(c, m, passes[0]);
      ReconcileTells(c, m, passes[0], k);
      hide Valid, Reconcile;
      StaysStopped(c, Reconcile(c, m, passes[0], false).m, passes[1..], k);
    }
  }

  // Whether two running sessions can go by one name.

  /** No two running sessions go by one name. */
  ghost predicate Distinct(m: Manager) {
    forall k <- m.running.vals, h <- m.running.vals :: m.running.vals[k].alias == m.running.vals[h].alias ==> k == h
  }

  /** A row of `rows` derives the name for the session. */
  predicate Derives(rows: seq<Row>, k: Key, a: Alias) {
    Row(k, a) in rows
  }

  /** Running sessions go by the names remembered, and those were all derived by some row. */
  ghost predicate NamedBy(m: Manager, rows: seq<Row>) {
    && (forall k <- m.running.vals :: k in m.remembered && m.running.vals[k].alias == m.remembered[k])
    && (forall k <- m.remembered :: Derives(rows, k, m.remembered[k]))
  }

  function AllRows(passes: seq<Pass>): seq<Row> {
    if passes == [] then [] else AllRows(passes[..|passes| - 1]) + passes[|passes| - 1].rows
  }

  lemma {:induction false} AliasesAreRows(rows: seq<Row>, k: Key)
    requires k in AliasesOf(rows)
    ensures Derives(rows, k, AliasesOf(rows)[k])
  {
    var init, last := rows[..|rows| - 1], rows[|rows| - 1];
    assert rows == init + [last];
    if k != last.key {
      AliasesAreRows(init, k);
    }
  }

  lemma TakeRowNamed(c: Config, m: Manager, row: Row, aliases: map<Key, Alias>, seedOnly: bool, starts: Key -> bool,
                     all: seq<Row>)
    requires NamedBy(m, all) && row.key in aliases && Derives(all, row.key, aliases[row.key])
    ensures NamedBy(TakeRow(c, m, row, aliases, seedOnly, starts).m, all)
  {
    var n := TakeRow(c, m, row, aliases, seedOnly, starts).m;
    var alias := if row.key in m.running.vals then m.running.vals[row.key].alias
      else NameOf(m, row.key, aliases[row.key]);
    assert Derives(all, row.key, alias);
    hide Derives, NamedBy;
    StaysNamed(m, n, row.key, alias, all);
  }

  lemma StaysNamed(m: Manager, n: Manager, key: Key, alias: Alias, all: seq<Row>)
    requires NamedBy(m, all) && Derives(all, key, alias) && n.remembered == m.remembered[key := alias]
    requires key in m.running.vals ==> m.running.vals[key].alias == alias
    requires n.running == m.running
             || exists r: Running :: r.alias == alias && n.running.vals == m.running.vals[key := r]
    ensures NamedBy(n, all)
  {
    hide Derives;
  }

  lemma {:induction false} TakeRowsNamed(c: Config, m: Manager, rows: seq<Row>, aliases: map<Key, Alias>,
                                         seedOnly: bool, starts: Key -> bool, all: seq<Row>)
    requires NamedBy(m, all) && forall row <- rows :: row.key in aliases && Derives(all, row.key, aliases[row.key])
    ensures NamedBy(TakeRows(c, m, rows, aliases, seedOnly, starts).m, all)
  {
    if rows != [] {
      var before := TakeRows(c, m, rows[..|rows| - 1], aliases, seedOnly, starts);
      TakeRowsNamed(c, m, rows[..|rows| - 1], aliases, seedOnly, starts, all);
      TakeRowNamed(c, before.m, rows[|rows| - 1], aliases, seedOnly, starts, all);
      hide TakeRow, NamedBy, Derives;
    }
  }

  lemma {:induction false} AgeAllNamed(c: Config, m: Manager, keys: seq<Key>, wanted: set<Key>, stops: Key -> bool,
                                       all: seq<Row>)
    requires NamedBy(m, all)
    ensures NamedBy(AgeAll(c, m, keys, wanted, stops).m, all)
  {
    if keys != [] {
      AgeAllNamed(c, m, keys[..|keys| - 1], wanted, stops, all);
    }
  }

  lemma ReconcileNamed(c: Config, m: Manager, pass: Pass, seedOnly: bool, all: seq<Row>)
    requires NamedBy(m, all)
    ensures NamedBy(Reconcile(c, m, pass, seedOnly).m, all + pass.rows)
  {
    assert forall row :: row in all || row in pass.rows ==> row in all + pass.rows;
    var aliases := AliasesOf(pass.rows);
    forall row <- pass.rows ensures Derives(all + pass.rows, row.key, aliases[row.key]) {
      AliasesAreRows(pass.rows, row.key);
    }
    hide TakeRows, AgeAll;
    TakeRowsNamed(c, m, pass.rows, aliases, seedOnly, pass.starts, all + pass.rows);
    var taken := TakeRows(c, m, pass.rows, aliases, seedOnly, pass.starts);
    AgeAllNamed(c, taken.m, taken.m.running.keys, Wanted(pass.rows), pass.stops, all + pass.rows);
  }

  /** While no two sessions ever discovered derive one alias, no two that run ever go by one. */
  lemma {:induction false} AliasesDiffer(c: Config, passes: seq<Pass>)
    requires passes != []
    ensures NamedBy(Run(c, passes), AllRows(passes))
    ensures NoCollision(AllRows(passes)) ==> Distinct(Run(c, passes))
  {
    var init, last := passes[..|passes| - 1], passes[|passes| - 1];
    if |passes| == 1 {
      ReconcileNamed(c, EMPTY, last, !c.exposeCurrent, []);
      assert AllRows(init) == [];
    } else {
      AliasesDiffer(c, init);
      ReconcileNamed(c, Run(c, init), last, false, AllRows(init));
    }
    hide Reconcile;
    NamedDiffer(Run(c, passes), AllRows(passes));
  }

  lemma NamedDiffer(m: Manager, rows: seq<Row>)
    requires NamedBy(m, rows)
    ensures NoCollision(rows) ==> Distinct(m)
  {
    if NoCollision(rows) {
      forall k <- m.running.vals, h <- m.running.vals | m.running.vals[k].alias == m.running.vals[h].alias
        ensures k == h {
        assert Derives(rows, k, m.remembered[k]) && Derives(rows, h, m.remembered[h]);
        var i :| 0 <= i < |rows| && rows[i] == Row(k, m.remembered[k]);
        var j :| 0 <= j < |rows| && rows[j] == Row(h, m.remembered[h]);
      }
    }
  }

  // One pass, exactly.

  predicate StartsNow(c: Config, m: Manager, pass: Pass, k: Key) {
    k in Wanted(pass.rows) && k !in m.running.vals && Exposes(c, m, k)
  }

  /** A running session that is found, or whose grace is not over. */
  predicate RunsOn(c: Config, m: Manager, pass: Pass, k: Key) {
    k in m.running.vals && (k in Wanted(pass.rows) || (m.running.vals[k].misses + 1) as real < c.grace)
  }

  /** The name a session runs under after the pass, if it does. */
  function NameAfter(c: Config, m: Manager, pass: Pass, k: Key): Option<Alias> {
    if StartsNow(c, m, pass, k) then Some(NameOf(m, k, AliasesOf(pass.rows)[k]))
    else if RunsOn(c, m, pass, k) then Some(m.running.vals[k].alias)
    else None
  }

  lemma RunsAfter(c: Config, m: Manager, pass: Pass, k: Key)
    requires Valid(c, m) && (c.exposeCurrent || c.exposeFuture) && Reconcile(c, m, pass, false).ok
    ensures var n := Reconcile(c, m, pass, false).m;
            (if k in n.running.vals then Some(n.running.vals[k].alias) else None) == NameAfter(c, m, pass, k)
  {
    ReconcileTells(c, m, pass, k);
    hide Reconcile, Valid;
  }

  /** A session is started under the name that another one starts under, too, or holds still. */
  ghost predicate Clash(c: Config, m: Manager, pass: Pass, k: Key, h: Key) {
    k != h && StartsNow(c, m, pass, k) && NameAfter(c, m, pass, h) == NameAfter(c, m, pass, k)
  }

  /** Names stay apart through a pass that threw nothing if and only if it starts no session under a name still held. */
  lemma StaysDistinct(c: Config, m: Manager, pass: Pass)
    requires Valid(c, m) && (c.exposeCurrent || c.exposeFuture) && Reconcile(c, m, pass, false).ok && Distinct(m)
    ensures Distinct(Reconcile(c, m, pass, false).m) <==> forall k, h :: !Clash(c, m, pass, k, h)
  {
    var n := Reconcile(c, m, pass, false).m;
    forall k ensures (if k in n.running.vals then Some(n.running.vals[k].alias) else None) == NameAfter(c, m, pass, k) {
      RunsAfter(c, m, pass, k);
    }
    hide Reconcile, Valid;
    forall k, h
      ensures Clash(c, m, pass, k, h) ==>
                k != h && k in n.running.vals && h in n.running.vals
                  && n.running.vals[k].alias == n.running.vals[h].alias {
    }
    if !Distinct(n) {
      var k, h :| k in n.running.vals && h in n.running.vals && k != h
        && n.running.vals[k].alias == n.running.vals[h].alias;
      assert Clash(c, m, pass, k, h) || Clash(c, m, pass, h, k);
    }
  }

  /** Every name remembered is the one a row derives now. */
  predicate Steady(m: Manager, rows: seq<Row>) {
    && (forall x <- m.running.vals :: x in m.remembered && m.running.vals[x].alias == m.remembered[x])
    && (forall row <- rows :: row.key in m.remembered ==> m.remembered[row.key] == row.alias)
  }

  lemma NameIsDerived(c: Config, m: Manager, pass: Pass, k: Key)
    requires Steady(m, pass.rows) && k in Wanted(pass.rows) && NameAfter(c, m, pass, k).Some?
    ensures Derives(pass.rows, k, NameAfter(c, m, pass, k).value)
  {
    AliasesAreRows(pass.rows, k);
    assert Row(k, AliasesOf(pass.rows)[k]) in pass.rows;
    hide AliasesOf;
  }

  lemma DerivedOnce(rows: seq<Row>, k: Key, h: Key, a: Alias)
    requires NoCollision(rows) && Derives(rows, k, a) && Derives(rows, h, a)
    ensures k == h
  {
    var i :| 0 <= i < |rows| && rows[i] == Row(k, a);
    var j :| 0 <= j < |rows| && rows[j] == Row(h, a);
  }

  /** Where names remembered are those derived, only a session gone stale can hold the name of one that starts. */
  lemma StaleHolds(c: Config, m: Manager, pass: Pass, k: Key, h: Key)
    requires NoCollision(pass.rows) && Clash(c, m, pass, k, h) && Steady(m, pass.rows)
    ensures h !in Wanted(pass.rows) && h in m.running.vals && (m.running.vals[h].misses + 1) as real < c.grace
  {
    NameIsDerived(c, m, pass, k);
    if h in Wanted(pass.rows) {
      NameIsDerived(c, m, pass, h);
      hide NameAfter, StartsNow, Derives;
      DerivedOnce(pass.rows, k, h, NameAfter(c, m, pass, k).value);
    }
    hide NoCollision;
  }

  lemma {:induction false} RowsSucceed(c: Config, m: Manager, rows: seq<Row>, aliases: map<Key, Alias>,
                                       starts: Key -> bool)
    requires (forall row <- rows :: row.key in aliases) && forall k :: starts(k)
    ensures TakeRows(c, m, rows, aliases, false, starts).ok
  {
    if rows != [] {
      RowsSucceed(c, m, rows[..|rows| - 1], aliases, starts);
    }
  }

  lemma {:induction false} AgesSucceed(c: Config, m: Manager, keys: seq<Key>, wanted: set<Key>, stops: Key -> bool)
    requires forall k :: stops(k)
    ensures AgeAll(c, m, keys, wanted, stops).ok
  {
    if keys != [] {
      AgesSucceed(c, m, keys[..|keys| - 1], wanted, stops);
    }
  }

  lemma PassSucceeds(c: Config, m: Manager, pass: Pass)
    requires NoCollision(pass.rows) && forall k :: pass.starts(k) && pass.stops(k)
    ensures Reconcile(c, m, pass, false).ok
  {
    var aliases := AliasesOf(pass.rows);
    RowsSucceed(c, m, pass.rows, aliases, pass.starts);
    var taken := TakeRows(c, m, pass.rows, aliases, false, pass.starts);
    hide TakeRows, AgeAll;
    AgesSucceed(c, taken.m, taken.m.running.keys, Wanted(pass.rows), pass.stops);
  }

  function Finds(k: Key, a: Alias): Pass {
    Pass([Row(k, a)], (_: Key) => true, (_: Key) => true)
  }

  lemma FoundAlone(c: Config, a: Key, x: Alias)
    requires c.exposeCurrent && 1.0 < c.grace
    ensures var m := Reconcile(c, EMPTY, Finds(a, x), false).m;
            && Valid(c, m) && Run(c, [Finds(a, x)]) == m
            && m.running.vals.Keys == {a} && m.running.vals[a].alias == x && m.running.vals[a].misses == 0
            && m.baseline == {} && forall k <- m.remembered :: k == a
  {
    var pass := Finds(a, x);
    PassSucceeds(c, EMPTY, pass);
    StartedIsValid(c, pass);
    var m := Reconcile(c, EMPTY, pass, false).m;
    forall k ensures FaceOf(m, k) == if k == a then Found(c, FaceOf(EMPTY, k), x) else Missed(c, FaceOf(EMPTY, k)) {
      ReconcileTells(c, EMPTY, pass, k);
    }
    hide Reconcile, Valid;
    forall k ensures (k in m.running.vals <==> k == a) && (k in m.remembered ==> k == a) && k !in m.baseline {
      assert FaceOf(m, k) == if k == a then Found(c, FaceOf(EMPTY, k), x) else Missed(c, FaceOf(EMPTY, k));
    }
    assert FaceOf(m, a).running == Some(Running(x, false, 0));
  }

  /** A session goes stale, another is discovered whose identity derives the same alias: both run under it. */
  lemma TwoUnderOneAlias(c: Config, a: Key, b: Key, x: Alias)
    requires a != b && c.exposeCurrent && 1.0 < c.grace
    ensures var m := Run(c, [Finds(a, x), Finds(b, x)]);
            && a in m.running.vals && b in m.running.vals
            && m.running.vals[a].alias == x && m.running.vals[b].alias == x
  {
    var first, second := Finds(a, x), Finds(b, x);
    assert [first, second][..1] == [first];
    var m := Reconcile(c, EMPTY, first, false).m;
    FoundAlone(c, a, x);
    PassSucceeds(c, m, second);
    hide Reconcile, Valid;
    RunsAfter(c, m, second, a);
    RunsAfter(c, m, second, b);
  }
}

/** The manager as it runs. */
module SessionManaging {
  import opened Records
  import opened OrderedMaps
  import opened SessionManagers

  /** `allocateAliases`: the names of the rows, or none when two sessions would share one. */
  method AllocateAliases(rows: seq<Row>) returns (aliases: Option<map<Key, Alias>>)
    ensures aliases == if NoCollision(rows) then Some(AliasesOf(rows)) else None
  {
    var names: map<Key, Alias> := map[];
    var used: map<Alias, Key> := map[];
    for i := 0 to |rows|
      invariant names == AliasesOf(rows[..i])
      invariant forall j :: 0 <= j < i ==> rows[j].alias in used && used[rows[j].alias] == rows[j].key
      invariant forall a <- used :: exists j :: 0 <= j < i && rows[j].alias == a && rows[j].key == used[a]
    {
      assert rows[..i + 1][..i] == rows[..i];
      var row := rows[i];
      if row.alias in used && used[row.alias] != row.key {
        ghost var j :| 0 <= j < i && rows[j].alias == row.alias && rows[j].key == used[row.alias];
        assert !NoCollision(rows);
        return None;
      }
      used := used[row.alias := row.key];
      names := names[row.key := row.alias];
    }
    assert rows[..|rows|] == rows;
    assert forall j :: 0 <= j < |rows| ==> used[rows[j].alias] == rows[j].key;
    return Some(names);
  }

  /** `CodexSessionManager`, as far as sessions go. */
  class SessionManager {
    const config: Config
    var running: OMap<Key, Running>
    var baseline: set<Key>
    var exposed: set<Key>
    var remembered: map<Key, Alias>

    ghost function State(): Manager
      reads this
    {
      Manager(running, baseline, exposed, remembered)
    }

    constructor (config: Config)
      ensures this.config == config && State() == SessionManagers.EMPTY
    {
      this.config, running, baseline, exposed, remembered := config, OrderedMaps.Empty(), {}, {}, map[];
    }

    /** `#shouldExposeRow`. */
    method ShouldExpose(key: Key) returns (exposes: bool)
      ensures exposes == Exposes(config, State(), key)
    {
      if config.exposeCurrent {
        return true;
      }
      if !config.exposeFuture {
        return false;
      }
      if key in exposed {
        return true;
      }
      return key !in baseline;
    }

    /** The body of the first loop. */
    method TakeRow(row: Row, aliases: map<Key, Alias>, seedOnly: bool, starts: Key -> bool) returns (ok: bool)
      requires row.key in aliases
      modifies this
      ensures Step(State(), ok) == SessionManagers.TakeRow(config, old(State()), row, aliases, seedOnly, starts)
    {
      var key := row.key;
      if key in running.vals {
        var session := running.vals[key];
        remembered := remembered[key := session.alias];
        running := Put(running, key, session.(stale := false, misses := 0));
        return true;
      }
      var alias := if key in remembered then remembered[key] else aliases[key];
      var exposes := false;
      if !seedOnly {
        exposes := ShouldExpose(key);
      }
      remembered := remembered[key := alias];
      if !exposes {
        baseline := baseline + {key};
        return true;
      }
      if !starts(key) {
        return false;
      }
      exposed := exposed + {key};
      running := Put(running, key, Running(alias, false, 0));
      return true;
    }

    /** The body of the second loop, for a session that was not discovered. */
    method Age(key: Key, stops: Key -> bool) returns (ok: bool)
      requires key in running.vals
      modifies this
      ensures Step(State(), ok) == SessionManagers.Age(config, old(State()), key, stops)
    {
      var session := running.vals[key];
      var misses := session.misses + 1;
      if misses as real >= config.grace {
        remembered := remembered[key := session.alias];
        if !stops(key) {
          return false;
        }
        running := Delete(running, key);
      } else {
        running := Put(running, key, session.(stale := true, misses := misses));
      }
      return true;
    }

    /** The first loop of `reconcile`, over the rows. */
    method TakeEach(rows: seq<Row>, aliases: map<Key, Alias>, seedOnly: bool, starts: Key -> bool) returns (ok: bool)
      requires forall row <- rows :: row.key in aliases
      modifies this
      ensures Step(State(), ok) == TakeRows(config, old(State()), rows, aliases, seedOnly, starts)
    {
      hide SessionManagers.TakeRow;
      for i := 0 to |rows|
        invariant Step(State(), true) == TakeRows(config, old(State()), rows[..i], aliases, seedOnly, starts)
      {
        assert rows[..i + 1][..i] == rows[..i];
        ok := TakeRow(rows[i], aliases, seedOnly, starts);
        if !ok {
          TakeRowsStop(config, old(State()), rows, aliases, seedOnly, starts, i + 1);
          return;
        }
      }
      assert rows[..|rows|] == rows;
      return true;
    }

    /** The second loop of `reconcile`, over the sessions running when it begins. */
    method AgeEach(wanted: set<Key>, stops: Key -> bool) returns (ok: bool)
      modifies this
      ensures Step(State(), ok) == AgeAll(config, old(State()), old(running).keys, wanted, stops)
    {
      hide SessionManagers.Age;
      var keys := running.keys;
      for i := 0 to |keys|
        invariant Step(State(), true) == AgeAll(config, old(State()), keys[..i], wanted, stops)
      {
        assert keys[..i + 1][..i] == keys[..i];
        if keys[i] !in wanted && keys[i] in running.vals {
          ok := Age(keys[i], stops);
          if !ok {
            AgeAllStops(config, old(State()), keys, wanted, stops, i + 1);
            return;
          }
        }
      }
      assert keys[..|keys|] == keys;
      return true;
    }

    /** `reconcile`. */
    method Reconcile(pass: Pass, seedOnly: bool) returns (ok: bool)
      modifies this
      ensures Step(State(), ok) == SessionManagers.Reconcile(config, old(State()), pass, seedOnly)
    {
      hide TakeRows, AgeAll, NoCollision;
      var names := AllocateAliases(pass.rows);
      if names.None? {
        return false;
      }
      ok := TakeEach(pass.rows, names.value, seedOnly, pass.starts);
      if ok {
        ok := AgeEach(Wanted(pass.rows), pass.stops);
      }
    }
  }

  lemma {:induction false} TakeRowsStop(c: Config, m: Manager, rows: seq<Row>, aliases: map<Key, Alias>, seedOnly: bool,
                                        starts: Key -> bool, i: nat)
    requires (forall row <- rows :: row.key in aliases) && i <= |rows|
    requires !TakeRows(c, m, rows[..i], aliases, seedOnly, starts).ok
    ensures TakeRows(c, m, rows, aliases, seedOnly, starts) == TakeRows(c, m, rows[..i], aliases, seedOnly, starts)
    decreases |rows|
  {
    if i == |rows| {
      assert rows[..i] == rows;
    } else {
      assert rows[..|rows| - 1][..i] == rows[..i];
      TakeRowsStop(c, m, rows[..|rows| - 1], aliases, seedOnly, starts, i);
    }
  }

  lemma {:induction false} AgeAllStops(c: Config, m: Manager, keys: seq<Key>, wanted: set<Key>, stops: Key -> bool,
                                       i: nat)
    requires i <= |keys| && !AgeAll(c, m, keys[..i], wanted, stops).ok
    ensures AgeAll(c, m, keys, wanted, stops) == AgeAll(c, m, keys[..i], wanted, stops)
    decreases |keys|
  {
    if i == |keys| {
      assert keys[..i] == keys;
    } else {
      assert keys[..|keys| - 1][..i] == keys[..i];
      AgeAllStops(c, m, keys[..|keys| - 1], wanted, stops, i);
    }
  }
}
