/**
 Reconciles that break off: when one does, and what it leaves done. The rows
 before the failed start were taken, none after it; the sessions before the
 failed stop were aged, none after it.
 */
module SessionBreakOffs {
  import opened Records
  import opened OrderedMaps
  import opened SessionManagers

  /** A session discovered that is to be started, and whose start would fail. */
  predicate FailsToStart(c: Config, f: Face, starts: bool) {
    && f.running.None? && !starts
    && (c.exposeCurrent || (c.exposeFuture && (f.exposed || !f.baseline)))
  }

  /** A session not discovered whose grace is over, and whose stop would fail. */
  predicate FailsToStop(c: Config, f: Face, stops: bool) {
    f.running.Some? && !stops && (f.running.value.misses + 1) as real >= c.grace
  }

  /** Of a session whose start failed only the name is kept. */
  function Named(f: Face, derived: Alias): Face {
    f.(name := Some(f.name.GetOr(derived)))
  }

  lemma TakeRowFails(c: Config, m: Manager, row: Row, aliases: map<Key, Alias>, starts: Key -> bool, k: Key)
    requires row.key in aliases
    ensures var s := TakeRow(c, m, row, aliases, false, starts);
            && (s.ok <==> !FailsToStart(c, FaceOf(m, row.key), starts(row.key)))
            && (!s.ok ==> FaceOf(s.m, k) == if k == row.key then Named(FaceOf(m, k), aliases[k]) else FaceOf(m, k))
  {}

  /** What was found once does not fail when found again. */
  lemma FoundStarts(c: Config, f: Face, derived: Alias, starts: bool)
    requires (c.exposeCurrent || c.exposeFuture) && !FailsToStart(c, f, starts)
    ensures !FailsToStart(c, Found(c, f, derived), starts)
  {}

  /** No row's session would fail to start. */
  ghost predicate AllStart(c: Config, m: Manager, rows: seq<Row>, starts: Key -> bool) {
    forall row <- rows :: !FailsToStart(c, FaceOf(m, row.key), starts(row.key))
  }

  lemma AllStartMore(c: Config, m: Manager, init: seq<Row>, last: Row, starts: Key -> bool)
    ensures AllStart(c, m, init + [last], starts) <==>
            AllStart(c, m, init, starts) && !FailsToStart(c, FaceOf(m, last.key), starts(last.key))
  {
    hide FailsToStart, FaceOf;
    assert last in init + [last] && forall row <- init :: row in init + [last];
  }

  lemma {:induction false} RowsSucceedIff(c: Config, m: Manager, rows: seq<Row>, aliases: map<Key, Alias>,
                                          starts: Key -> bool)
    requires (forall row <- rows :: row.key in aliases) && (c.exposeCurrent || c.exposeFuture)
    ensures TakeRows(c, m, rows, aliases, false, starts).ok <==> AllStart(c, m, rows, starts)
  {
    if rows != [] {
      var init, last := rows[..|rows| - 1], rows[|rows| - 1];
      assert rows == init + [last];
      RowsSucceedIff(c, m, init, aliases, starts);
      AllStartMore(c, m, init, last, starts);
      var before := TakeRows(c, m, init, aliases, false, starts);
      hide AllStart, TakeRow, Found, FaceOf, FailsToStart;
      if before.ok {
        TakeRowFails(c, before.m, last, aliases, starts, last.key);
        TakeRowsTell(c, m, init, aliases, starts, last.key);
        if last.key in Wanted(init) {
          AlreadyStarts(c, m, init, starts, last.key);
          FoundStarts(c, FaceOf(m, last.key), aliases[last.key], starts(last.key));
        }
      }
    }
  }

  lemma AlreadyStarts(c: Config, m: Manager, rows: seq<Row>, starts: Key -> bool, k: Key)
    requires AllStart(c, m, rows, starts) && k in Wanted(rows)
    ensures !FailsToStart(c, FaceOf(m, k), starts(k))
  {
    hide FailsToStart, FaceOf;
  }

  lemma {:induction false} RowsBreakOff(c: Config, m: Manager, rows: seq<Row>, aliases: map<Key, Alias>,
                                        starts: Key -> bool, i: nat, k: Key)
    requires (forall row <- rows :: row.key in aliases) && (c.exposeCurrent || c.exposeFuture)
    requires i < |rows| && AllStart(c, m, rows[..i], starts)
    requires FailsToStart(c, FaceOf(m, rows[i].key), starts(rows[i].key))
    ensures var s := TakeRows(c, m, rows, aliases, false, starts);
            && !s.ok
            && FaceOf(s.m, k) ==
               if k in Wanted(rows[..i]) then Found(c, FaceOf(m, k), aliases[k])
               else if k == rows[i].key then Named(FaceOf(m, k), aliases[k])
               else FaceOf(m, k)
  {
    var init, last := rows[..|rows| - 1], rows[|rows| - 1];
    assert rows == init + [last];
    if i < |rows| - 1 {
      assert init[..i] == rows[..i];
      RowsBreakOff(c, m, init, aliases, starts, i, k);
    } else {
      assert init == rows[..i];
      var before := TakeRows(c, m, init, aliases, false, starts);
      RowsSucceedIff(c, m, init, aliases, starts);
      hide TakeRow, Found, FaceOf, FailsToStart;
      TakeRowsTell(c, m, init, aliases, starts, k);
      TakeRowsTell(c, m, init, aliases, starts, last.key);
      if last.key in Wanted(init) {
        AlreadyStarts(c, m, init, starts, last.key);
      }
      hide AllStart;
      TakeRowFails(c, before.m, last, aliases, starts, k);
    }
  }

  /**
   A reconcile that comes to a session it cannot start breaks off there: the
   rows before it were taken, its name is kept, and nothing else is touched,
   no session aged.
   */
  lemma StartFails(c: Config, m: Manager, pass: Pass, i: nat, k: Key)
    requires NoCollision(pass.rows) && (c.exposeCurrent || c.exposeFuture)
    requires i < |pass.rows| && AllStart(c, m, pass.rows[..i], pass.starts)
    requires FailsToStart(c, FaceOf(m, pass.rows[i].key), pass.starts(pass.rows[i].key))
    ensures var s, rows := Reconcile(c, m, pass, false), pass.rows;
            && !s.ok
            && FaceOf(s.m, k) ==
               if k in Wanted(rows[..i]) then Found(c, FaceOf(m, k), AliasesOf(rows)[k])
               else if k == rows[i].key then Named(FaceOf(m, k), AliasesOf(rows)[k])
               else FaceOf(m, k)
  {
    RowsBreakOff(c, m, pass.rows, AliasesOf(pass.rows), pass.starts, i, k);
    hide TakeRows, FaceOf, Found, AllStart, FailsToStart;
  }

  // Stops.

  lemma AgeFails(c: Config, m: Manager, key: Key, stops: Key -> bool, k: Key)
    requires Valid(c, m) && key in m.running.vals
    ensures var s := Age(c, m, key, stops);
            && (s.ok <==> !FailsToStop(c, FaceOf(m, key), stops(key)))
            && (!s.ok ==> FaceOf(s.m, k) == FaceOf(m, k))
  {}

  /** No session of `keys` that was not discovered would fail to stop. */
  ghost predicate AllStop(c: Config, m: Manager, keys: seq<Key>, wanted: set<Key>, stops: Key -> bool) {
    forall key <- keys :: key !in wanted ==> !FailsToStop(c, FaceOf(m, key), stops(key))
  }

  lemma AllStopMore(c: Config, m: Manager, init: seq<Key>, last: Key, wanted: set<Key>, stops: Key -> bool)
    ensures AllStop(c, m, init + [last], wanted, stops) <==>
            AllStop(c, m, init, wanted, stops)
            && (last !in wanted ==> !FailsToStop(c, FaceOf(m, last), stops(last)))
  {
    hide FailsToStop, FaceOf;
    assert last in init + [last] && forall key <- init :: key in init + [last];
  }

  lemma NotRunning(c: Config, m: Manager, key: Key, stops: bool)
    requires key !in m.running.vals
    ensures !FailsToStop(c, FaceOf(m, key), stops)
  {}

  lemma RunsAs(m: Manager, n: Manager, key: Key)
    requires FaceOf(m, key) == FaceOf(n, key)
    ensures key in m.running.vals <==> key in n.running.vals
  {}

  lemma {:induction false} AgesSucceedIff(c: Config, m: Manager, keys: seq<Key>, wanted: set<Key>, stops: Key -> bool)
    requires Valid(c, m) && NoDup(keys)
    ensures AgeAll(c, m, keys, wanted, stops).ok <==> AllStop(c, m, keys, wanted, stops)
  {
    if keys != [] {
      var init, last := keys[..|keys| - 1], keys[|keys| - 1];
      assert keys == init + [last] && NoDup(init) && last !in init;
      AgesSucceedIff(c, m, init, wanted, stops);
      AllStopMore(c, m, init, last, wanted, stops);
      var before := AgeAll(c, m, init, wanted, stops);
      AgeAllKeeps(c, m, init, wanted, stops);
      hide AllStop, Age, Missed, FaceOf, FailsToStop, NoDup, Valid;
      if before.ok {
        AgeAllTells(c, m, init, wanted, stops, last);
        RunsAs(before.m, m, last);
        if last in before.m.running.vals {
          AgeFails(c, before.m, last, stops, last);
        } else {
          NotRunning(c, m, last, stops(last));
        }
      }
    }
  }

  lemma {:induction false} AgesBreakOff(c: Config, m: Manager, keys: seq<Key>, wanted: set<Key>, stops: Key -> bool,
                                        i: nat, k: Key)
    requires Valid(c, m) && NoDup(keys) && i < |keys| && AllStop(c, m, keys[..i], wanted, stops)
    requires keys[i] !in wanted && FailsToStop(c, FaceOf(m, keys[i]), stops(keys[i]))
    ensures var s := AgeAll(c, m, keys, wanted, stops);
            && !s.ok
            && FaceOf(s.m, k) == if k in keys[..i] && k !in wanted then Missed(c, FaceOf(m, k)) else FaceOf(m, k)
  {
    var init, last := keys[..|keys| - 1], keys[|keys| - 1];
    assert keys == init + [last] && NoDup(init) && last !in init;
    if i < |keys| - 1 {
      assert init[..i] == keys[..i];
      AgesBreakOff(c, m, init, wanted, stops, i, k);
      hide AllStop, Age, Missed, FaceOf, FailsToStop, NoDup, Valid;
    } else {
      assert init == keys[..i];
      var before := AgeAll(c, m, init, wanted, stops);
      AgesSucceedIff(c, m, init, wanted, stops);
      AgeAllKeeps(c, m, init, wanted, stops);
      hide AllStop, Age, Missed, FaceOf, FailsToStop, NoDup, Valid;
      AgeAllTells(c, m, init, wanted, stops, k);
      AgeAllTells(c, m, init, wanted, stops, last);
      RunsAs(before.m, m, last);
      if last in m.running.vals {
        AgeFails(c, before.m, last, stops, k);
      } else {
        NotRunning(c, m, last, stops(last));
      }
    }
  }

  lemma TakeRowGrows(c: Config, m: Manager, row: Row, aliases: map<Key, Alias>, starts: Key -> bool)
    requires row.key in aliases
    ensures var n := TakeRow(c, m, row, aliases, false, starts).m;
            n.running.keys == m.running.keys || n.running.keys == m.running.keys + [row.key]
  {}

  /** The sessions that run keep their order, and those started come after them. */
  lemma {:induction false} RunningGrows(c: Config, m: Manager, rows: seq<Row>, aliases: map<Key, Alias>,
                                        starts: Key -> bool) returns (more: seq<Key>)
    requires forall row <- rows :: row.key in aliases
    ensures TakeRows(c, m, rows, aliases, false, starts).m.running.keys == m.running.keys + more
    ensures forall key <- more :: key in Wanted(rows)
  {
    if rows == [] {
      more := [];
    } else {
      var init, last := rows[..|rows| - 1], rows[|rows| - 1];
      assert rows == init + [last] && Wanted(rows) == Wanted(init) + {last.key};
      more := RunningGrows(c, m, init, aliases, starts);
      var before, after := TakeRows(c, m, init, aliases, false, starts), TakeRows(c, m, rows, aliases, false, starts);
      TakeRowGrows(c, before.m, last, aliases, starts);
      hide TakeRow;
      if after.m.running.keys != before.m.running.keys {
        Assoc(m.running.keys, more, [last.key]);
        more := more + [last.key];
      }
    }
  }

  lemma SamePrefix(c: Config, m: Manager, n: Manager, keys: seq<Key>, wanted: set<Key>, stops: Key -> bool)
    requires forall key <- keys :: key !in wanted ==> FaceOf(n, key) == FaceOf(m, key)
    ensures AllStop(c, m, keys, wanted, stops) <==> AllStop(c, n, keys, wanted, stops)
  {
    hide FailsToStop, FaceOf;
  }

  /**
   One whose rows all start, but that comes to a session, in the order they
   run, whose grace is over and that it cannot stop, breaks off there: every
   row was taken, the missed sessions before it are a miss older, or
   stopped, and that one and all after it are as they were.
   */
  lemma StopFails(c: Config, m: Manager, pass: Pass, i: nat, k: Key)
    requires Valid(c, m) && 0.0 < c.grace && NoCollision(pass.rows) && (c.exposeCurrent || c.exposeFuture)
    requires AllStart(c, m, pass.rows, pass.starts) && i < |m.running.keys|
    requires AllStop(c, m, m.running.keys[..i], Wanted(pass.rows), pass.stops)
    requires var key := m.running.keys[i];
             key !in Wanted(pass.rows) && FailsToStop(c, FaceOf(m, key), pass.stops(key))
    ensures var s, rows := Reconcile(c, m, pass, false), pass.rows;
            && !s.ok
            && FaceOf(s.m, k) ==
               if k in Wanted(rows) then Found(c, FaceOf(m, k), AliasesOf(rows)[k])
               else if k in m.running.keys[..i] then Missed(c, FaceOf(m, k))
               else FaceOf(m, k)
  {
    var aliases, wanted, keys := AliasesOf(pass.rows), Wanted(pass.rows), m.running.keys;
    var taken := TakeRows(c, m, pass.rows, aliases, false, pass.starts);
    RowsSucceedIff(c, m, pass.rows, aliases, pass.starts);
    TakeRowsKeeps(c, m, pass.rows, aliases, pass.starts);
    var more := RunningGrows(c, m, pass.rows, aliases, pass.starts);
    assert taken.m.running.keys[..i] == keys[..i] && taken.m.running.keys[i] == keys[i];
    hide TakeRows, AgeAll, Valid, Found, Missed, FaceOf, FailsToStop, AllStart, AllStop, NoCollision;
    forall key | key !in wanted ensures FaceOf(taken.m, key) == FaceOf(m, key) {
      TakeRowsTell(c, m, pass.rows, aliases, pass.starts, key);
    }
    TakeRowsTell(c, m, pass.rows, aliases, pass.starts, k);
    SamePrefix(c, m, taken.m, keys[..i], wanted, pass.stops);
    AgesBreakOff(c, taken.m, taken.m.running.keys, wanted, pass.stops, i, k);
  }

  /** A reconcile throws nothing exactly when no two rows share a name, every start succeeds, and every stop. */
  lemma ReconcileSucceeds(c: Config, m: Manager, pass: Pass)
    requires Valid(c, m) && 0.0 < c.grace && (c.exposeCurrent || c.exposeFuture)
    ensures Reconcile(c, m, pass, false).ok <==>
            && NoCollision(pass.rows) && AllStart(c, m, pass.rows, pass.starts)
            && AllStop(c, m, m.running.keys, Wanted(pass.rows), pass.stops)
    ensures !NoCollision(pass.rows) ==> Reconcile(c, m, pass, false).m == m
  {
    if NoCollision(pass.rows) {
      var aliases, wanted := AliasesOf(pass.rows), Wanted(pass.rows);
      var taken := TakeRows(c, m, pass.rows, aliases, false, pass.starts);
      RowsSucceedIff(c, m, pass.rows, aliases, pass.starts);
      TakeRowsKeeps(c, m, pass.rows, aliases, pass.starts);
      if taken.ok {
        var more := RunningGrows(c, m, pass.rows, aliases, pass.starts);
        hide TakeRows, AgeAll, Valid, Found, Missed, FaceOf, FailsToStop, AllStart, NoCollision;
        AgesSucceedIff(c, taken.m, taken.m.running.keys, wanted, pass.stops);
        forall key | key !in wanted ensures FaceOf(taken.m, key) == FaceOf(m, key) {
          TakeRowsTell(c, m, pass.rows, aliases, pass.starts, key);
        }
        SamePrefix(c, m, taken.m, m.running.keys, wanted, pass.stops);
        StartedAreWanted(c, taken.m, m.running.keys, more, wanted, pass.stops);
      }
    }
    hide NoCollision;
  }

  lemma StartedAreWanted(c: Config, n: Manager, keys: seq<Key>, more: seq<Key>, wanted: set<Key>, stops: Key -> bool)
    requires forall key <- more :: key in wanted
    ensures AllStop(c, n, keys + more, wanted, stops) <==> AllStop(c, n, keys, wanted, stops)
  {
    hide FailsToStop, FaceOf;
    assert forall key <- keys :: key in keys + more;
  }

  // The seeding pass.

  lemma {:induction false} SeedingTells(c: Config, rows: seq<Row>, aliases: map<Key, Alias>, starts: Key -> bool,
                                        k: Key)
    requires forall row <- rows :: row.key in aliases
    ensures FaceOf(TakeRows(c, EMPTY, rows, aliases, true, starts).m, k) ==
            if k in Wanted(rows) then Face(None, false, true, Some(aliases[k])) else Face(None, false, false, None)
  {
    if rows != [] {
      var init, last := rows[..|rows| - 1], rows[|rows| - 1];
      assert rows == init + [last] && Wanted(rows) == Wanted(init) + {last.key};
      SeedingTells(c, init, aliases, starts, k);
      SeedingTells(c, init, aliases, starts, last.key);
      SeedsOnly(c, init, aliases, starts);
    }
  }

  /** A start that only notes what runs: every session found is in the baseline under its name, and none runs. */
  lemma SeedingNotes(c: Config, pass: Pass, k: Key)
    requires !c.exposeCurrent && NoCollision(pass.rows)
    ensures Started(c, pass).ok
    ensures FaceOf(Started(c, pass).m, k) ==
            if k in Wanted(pass.rows) then Face(None, false, true, Some(AliasesOf(pass.rows)[k]))
            else Face(None, false, false, None)
  {
    var aliases := AliasesOf(pass.rows);
    SeedsOnly(c, pass.rows, aliases, pass.starts);
    SeedingTells(c, pass.rows, aliases, pass.starts, k);
    var taken := TakeRows(c, EMPTY, pass.rows, aliases, true, pass.starts);
    hide TakeRows, FaceOf, NoCollision;
    assert AgeAll(c, taken.m, [], Wanted(pass.rows), pass.stops) == Step(taken.m, true);
  }

  /** The name derived for a session is that of the last row it was found in. */
  lemma {:induction false} AliasIsTheLastRows(rows: seq<Row>, i: nat)
    requires i < |rows| && forall j :: i < j < |rows| ==> rows[j].key != rows[i].key
    ensures rows[i].key in AliasesOf(rows) && AliasesOf(rows)[rows[i].key] == rows[i].alias
  {
    if i < |rows| - 1 {
      AliasIsTheLastRows(rows[..|rows| - 1], i);
    }
  }
}
