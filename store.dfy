/**
 * The database the jobs write, as in-memory state. Actual observations are
 * keyed by their unique columns (the date for CPI, the pair (date,
 * category) for the wage, building-cost and producer price tables),
 * forecast runs by their id, and forecast points refer to a run by id.
 * A new run gets the id SQLite gives an INTEGER PRIMARY KEY: one more than
 * the largest id in the table, or 1 in an empty table.
 */
module Store {
  import opened Wrappers
  import opened Calendar
  import opened Numbers

  // ---------------------------------------------------------------------
  // Row ids
  // ---------------------------------------------------------------------

  predicate IsMax(m: nat, s: set<nat>) {
    m in s && forall x :: x in s ==> x <= m
  }

  predicate IsMin(m: nat, s: set<nat>) {
    m in s && forall x :: x in s ==> m <= x
  }

  lemma {:induction false} MaxExists(s: set<nat>)
    requires s != {}
    ensures exists m :: IsMax(m, s)
    decreases |s|
  {
    var y :| y in s;
    if s != {y} {
      MaxExists(s - {y});
      var m :| IsMax(m, s - {y});
      assert forall x :: x in s ==> x == y || x in s - {y};
      if m < y {
        assert IsMax(y, s);
      } else {
        assert IsMax(m, s);
      }
    } else {
      assert IsMax(y, s);
    }
  }

  lemma {:induction false} MinExists(s: set<nat>)
    requires s != {}
    ensures exists m :: IsMin(m, s)
    decreases |s|
  {
    var y :| y in s;
    if s != {y} {
      MinExists(s - {y});
      var m :| IsMin(m, s - {y});
      assert forall x :: x in s ==> x == y || x in s - {y};
      if y < m {
        assert IsMin(y, s);
      } else {
        assert IsMin(m, s);
      }
    } else {
      assert IsMin(y, s);
    }
  }

  function MaxOf(s: set<nat>): (m: nat)
    requires s != {}
    ensures IsMax(m, s)
  {
    MaxExists(s);
    var m :| IsMax(m, s);
    m
  }

  /** The lowest id of a non-empty set: the row a table scan meets first. */
  function MinOf(s: set<nat>): (m: nat)
    requires s != {}
    ensures IsMin(m, s)
  {
    MinExists(s);
    var m :| IsMin(m, s);
    m
  }

  /** The id a flush assigns to a new row: above every id in use, and the largest one plus one. */
  function FreshId(ids: set<nat>): (id: nat)
    ensures id > 0 && id !in ids
    ensures forall k :: k in ids ==> k < id
    ensures ids == {} ==> id == 1
    ensures ids != {} ==> id - 1 in ids
  {
    if ids == {} then 1 else MaxOf(ids) + 1
  }

  // ---------------------------------------------------------------------
  // Rows
  // ---------------------------------------------------------------------

  /** A CPI actual: the index level and, unless it was missing, the month-over-month change. */
  datatype CpiActual = CpiActual(cpi: real, monthlyChange: Option<Float>)

  /**
   * A forecast run. `createdAt` is the calendar month of `created_at`;
   * the column has no default, so only the writers that set it (the CPI
   * backfill) leave something other than None.
   */
  datatype Run = Run(createdAt: Option<Month>, monthsPredict: int, notes: string)

  /**
   * A forecast point: the run it belongs to, its date, its category and
   * the predicted value. CPI points have no category column (`C` is the
   * unit type there); the index tables' points carry a string.
   */
  datatype Point<C> = Point(runId: nat, date: Month, category: C, predicted: real)

  /** `for d, y in pairs: add(Point(run_id=id, date=d, category=c, predicted=float(y)))` */
  function PointsFor<C>(id: nat, category: C, pairs: seq<(Month, real)>): (ps: seq<Point<C>>)
    ensures |ps| == |pairs|
    ensures forall i :: 0 <= i < |ps| ==> ps[i] == Point(id, pairs[i].0, category, pairs[i].1)
  {
    seq(|pairs|, i requires 0 <= i < |pairs| => Point(id, pairs[i].0, category, pairs[i].1))
  }

  /** The points of run `id`, in insertion order. */
  function OfRun<C(==)>(ps: seq<Point<C>>, id: nat): (r: seq<Point<C>>)
    ensures forall i :: 0 <= i < |r| ==> r[i].runId == id
    ensures |r| <= |ps|
  {
    if ps == [] then []
    else OfRun(ps[..|ps| - 1], id) + if ps[|ps| - 1].runId == id then [ps[|ps| - 1]] else []
  }

  /** `delete(Point).where(Point.run_id == id)`: every other point, in order. */
  function WithoutRun<C(==)>(ps: seq<Point<C>>, id: nat): (r: seq<Point<C>>)
    ensures forall i :: 0 <= i < |r| ==> r[i].runId != id
    ensures |r| <= |ps|
  {
    if ps == [] then []
    else WithoutRun(ps[..|ps| - 1], id) + if ps[|ps| - 1].runId != id then [ps[|ps| - 1]] else []
  }

  /** Every point whose run is not among `ids`, in order. */
  function WithoutRuns<C(==)>(ps: seq<Point<C>>, ids: set<nat>): (r: seq<Point<C>>)
    ensures forall i :: 0 <= i < |r| ==> r[i].runId !in ids
    ensures |r| <= |ps|
  {
    if ps == [] then []
    else WithoutRuns(ps[..|ps| - 1], ids) + if ps[|ps| - 1].runId !in ids then [ps[|ps| - 1]] else []
  }

  /** Deleting no run keeps every point. */
  lemma {:induction false} WithoutNoRuns<C>(ps: seq<Point<C>>)
    ensures WithoutRuns(ps, {}) == ps
  {
    if ps != [] {
      WithoutNoRuns(ps[..|ps| - 1]);
      assert ps == ps[..|ps| - 1] + [ps[|ps| - 1]];
    }
  }

  /** Deleting runs one at a time, in any order, deletes the points of all of them. */
  lemma {:induction false} WithoutOneMore<C>(ps: seq<Point<C>>, ids: set<nat>, id: nat)
    ensures WithoutRun(WithoutRuns(ps, ids), id) == WithoutRuns(ps, ids + {id})
  {
    if ps != [] {
      var init := ps[..|ps| - 1];
      var last := ps[|ps| - 1];
      WithoutOneMore(init, ids, id);
      var tail := if last.runId !in ids then [last] else [];
      var tail' := if last.runId !in ids + {id} then [last] else [];
      assert WithoutRuns(ps, ids) == WithoutRuns(init, ids) + tail;
      assert WithoutRuns(ps, ids + {id}) == WithoutRuns(init, ids + {id}) + tail';
      WithoutRunAppend(WithoutRuns(init, ids), tail, id);
      assert WithoutRun(tail, id) == tail' by {
        if tail != [] {
          assert tail[..0] == [];
        }
      }
    }
  }

  /** Deleting from a concatenation deletes from each part. */
  lemma {:induction false} WithoutRunAppend<C>(ps: seq<Point<C>>, qs: seq<Point<C>>, id: nat)
    ensures WithoutRun(ps + qs, id) == WithoutRun(ps, id) + WithoutRun(qs, id)
    decreases |qs|
  {
    if qs != [] {
      var init := qs[..|qs| - 1];
      WithoutRunAppend(ps, init, id);
      var last := qs[|qs| - 1];
      assert (ps + qs)[..|ps + qs| - 1] == ps + init;
      assert (ps + qs)[|ps + qs| - 1] == last;
      var tail := if last.runId != id then [last] else [];
      assert WithoutRun(ps + qs, id) == WithoutRun(ps + init, id) + tail;
      assert WithoutRun(qs, id) == WithoutRun(init, id) + tail;
    } else {
      assert ps + qs == ps;
    }
  }

  /** The points of one category, in insertion order. */
  function OfCategory(ps: seq<Point<string>>, category: string): (r: seq<Point<string>>)
    ensures forall i :: 0 <= i < |r| ==> r[i].category == category
    ensures |r| <= |ps|
  {
    if ps == [] then []
    else OfCategory(ps[..|ps| - 1], category) + if ps[|ps| - 1].category == category then [ps[|ps| - 1]] else []
  }

  /** The points of a category are points of the table: the filter invents nothing. */
  lemma {:induction false} OfCategoryFrom(ps: seq<Point<string>>, category: string)
    ensures forall p :: p in OfCategory(ps, category) ==> p in ps
  {
    if ps != [] {
      var init := ps[..|ps| - 1];
      OfCategoryFrom(init, category);
      assert forall p :: p in init ==> p in ps;
    }
  }

  lemma {:induction false} OfCategoryAppend(ps: seq<Point<string>>, qs: seq<Point<string>>, category: string)
    ensures OfCategory(ps + qs, category) == OfCategory(ps, category) + OfCategory(qs, category)
    decreases |qs|
  {
    if qs != [] {
      var init := qs[..|qs| - 1];
      OfCategoryAppend(ps, init, category);
      var last := qs[|qs| - 1];
      assert (ps + qs)[..|ps + qs| - 1] == ps + init;
      assert (ps + qs)[|ps + qs| - 1] == last;
    } else {
      assert ps + qs == ps;
    }
  }

  /** Points written under one category are all of that category's points, and none of another's. */
  lemma {:induction false} OfCategoryPointsFor(id: nat, c: string, pairs: seq<(Month, real)>, category: string)
    ensures OfCategory(PointsFor(id, c, pairs), category) == if c == category then PointsFor(id, c, pairs) else []
    decreases |pairs|
  {
    if pairs != [] {
      var init := pairs[..|pairs| - 1];
      OfCategoryPointsFor(id, c, init, category);
      assert PointsFor(id, c, pairs)[..|pairs| - 1] == PointsFor(id, c, init);
    }
  }

  /** The foreign key of `run_id`: every point refers to a run of the table. */
  predicate Owned<C>(ps: seq<Point<C>>, ids: set<nat>) {
    forall i :: 0 <= i < |ps| ==> ps[i].runId in ids
  }

  /** `OfRun` keeps exactly the stored points of the run. */
  lemma {:induction false} OfRunMembers<C>(ps: seq<Point<C>>, id: nat)
    ensures forall p :: p in OfRun(ps, id) <==> p in ps && p.runId == id
  {
    if ps != [] {
      var init := ps[..|ps| - 1];
      OfRunMembers(init, id);
      assert ps == init + [ps[|ps| - 1]];
    }
  }

  /** `WithoutRun` keeps exactly the stored points of every other run. */
  lemma {:induction false} WithoutRunMembers<C>(ps: seq<Point<C>>, id: nat)
    ensures forall p :: p in WithoutRun(ps, id) <==> p in ps && p.runId != id
  {
    if ps != [] {
      var init := ps[..|ps| - 1];
      WithoutRunMembers(init, id);
      assert ps == init + [ps[|ps| - 1]];
    }
  }

  /** `WithoutRuns` keeps exactly the stored points of the runs not deleted. */
  lemma {:induction false} WithoutRunsMembers<C>(ps: seq<Point<C>>, ids: set<nat>)
    ensures forall p :: p in WithoutRuns(ps, ids) <==> p in ps && p.runId !in ids
  {
    if ps != [] {
      var init := ps[..|ps| - 1];
      WithoutRunsMembers(init, ids);
      assert ps == init + [ps[|ps| - 1]];
    }
  }

  /** Deleting runs with their points keeps the foreign key. */
  lemma WithoutRunsOwned<C>(ps: seq<Point<C>>, ids: set<nat>, gone: set<nat>)
    requires Owned(ps, ids)
    ensures Owned(WithoutRuns(ps, gone), ids - gone)
  {
    var r := WithoutRuns(ps, gone);
    WithoutRunsMembers(ps, gone);
    forall i | 0 <= i < |r|
      ensures r[i].runId in ids - gone
    {
      assert r[i] in r;
    }
  }

  /** Deleting one run with its points keeps the foreign key. */
  lemma WithoutRunOwned<C>(ps: seq<Point<C>>, ids: set<nat>, id: nat)
    requires Owned(ps, ids)
    ensures Owned(WithoutRun(ps, id), ids - {id})
  {
    var r := WithoutRun(ps, id);
    WithoutRunMembers(ps, id);
    forall i | 0 <= i < |r|
      ensures r[i].runId in ids - {id}
    {
      assert r[i] in r;
    }
  }

  /** The points of a run after an append are its old points followed by its new ones. */
  lemma {:induction false} OfRunAppend<C>(ps: seq<Point<C>>, qs: seq<Point<C>>, id: nat)
    ensures OfRun(ps + qs, id) == OfRun(ps, id) + OfRun(qs, id)
    decreases |qs|
  {
    if qs != [] {
      var init := qs[..|qs| - 1];
      OfRunAppend(ps, init, id);
      var last := qs[|qs| - 1];
      assert (ps + qs)[..|ps + qs| - 1] == ps + init;
      assert (ps + qs)[|ps + qs| - 1] == last;
      var tail := if last.runId == id then [last] else [];
      assert OfRun(ps + qs, id) == OfRun(ps + init, id) + tail;
      assert OfRun(qs, id) == OfRun(init, id) + tail;
    } else {
      assert ps + qs == ps;
    }
  }

  /** A run that no stored point refers to has no points. */
  lemma {:induction false} OfRunAbsent<C>(ps: seq<Point<C>>, id: nat)
    requires forall i :: 0 <= i < |ps| ==> ps[i].runId != id
    ensures OfRun(ps, id) == []
  {
    if ps != [] {
      OfRunAbsent(ps[..|ps| - 1], id);
    }
  }

  /** Points written for run `id` are all points of that run. */
  lemma {:induction false} OfRunPointsFor<C>(id: nat, category: C, pairs: seq<(Month, real)>)
    ensures OfRun(PointsFor(id, category, pairs), id) == PointsFor(id, category, pairs)
    decreases |pairs|
  {
    if pairs != [] {
      var init := pairs[..|pairs| - 1];
      OfRunPointsFor(id, category, init);
      assert PointsFor(id, category, pairs)[..|pairs| - 1] == PointsFor(id, category, init);
    }
  }

  /**
   * "One run, many points": after the points of a fresh run are appended
   * to points that all belong to other runs, the run's points are exactly
   * the ones just written, in order.
   */
  lemma NewRunOwnsItsPoints<C>(ps: seq<Point<C>>, ids: set<nat>, category: C, pairs: seq<(Month, real)>)
    requires Owned(ps, ids)
    ensures var id := FreshId(ids);
            OfRun(ps + PointsFor(id, category, pairs), id) == PointsFor(id, category, pairs)
  {
    var id := FreshId(ids);
    OfRunAppend(ps, PointsFor(id, category, pairs), id);
    OfRunAbsent(ps, id);
    OfRunPointsFor(id, category, pairs);
  }

  /** After the run's points are deleted and new ones appended, the run has exactly the new points. */
  lemma ReplacedPoints<C>(ps: seq<Point<C>>, id: nat, category: C, pairs: seq<(Month, real)>)
    ensures OfRun(WithoutRun(ps, id) + PointsFor(id, category, pairs), id) == PointsFor(id, category, pairs)
  {
    var rest := WithoutRun(ps, id);
    OfRunAppend(rest, PointsFor(id, category, pairs), id);
    OfRunAbsent(rest, id);
    OfRunPointsFor(id, category, pairs);
  }

  // ---------------------------------------------------------------------
  // Replace-or-insert by key
  // ---------------------------------------------------------------------

  /**
   * A table after a loop of `one_or_none()` lookups that update the row
   * found or add a new one, key by key in order.
   */
  function Upserted<K, V>(m: map<K, V>, kvs: seq<(K, V)>): map<K, V>
    decreases |kvs|
  {
    if kvs == [] then m
    else Upserted(m, kvs[..|kvs| - 1])[kvs[|kvs| - 1].0 := kvs[|kvs| - 1].1]
  }

  /**
   * One row per key, and the latest write wins: a key is present exactly
   * when it was present or written, keeps its value when not written, and
   * otherwise holds the value of its last write.
   */
  lemma {:induction false} UpsertedSpec<K, V>(m: map<K, V>, kvs: seq<(K, V)>, k: K)
    ensures k in Upserted(m, kvs) <==> k in m || exists i :: 0 <= i < |kvs| && kvs[i].0 == k
    ensures (forall i :: 0 <= i < |kvs| ==> kvs[i].0 != k) && k in m ==> Upserted(m, kvs)[k] == m[k]
    ensures forall i :: 0 <= i < |kvs| && kvs[i].0 == k && (forall j :: i < j < |kvs| ==> kvs[j].0 != k) ==>
      Upserted(m, kvs)[k] == kvs[i].1
    decreases |kvs|
  {
    if kvs != [] {
      var n := |kvs| - 1;
      var init := kvs[..n];
      UpsertedSpec(m, init, k);
      assert forall i :: 0 <= i < n ==> init[i] == kvs[i];
      if kvs[n].0 != k {
        forall i | 0 <= i < |kvs| && kvs[i].0 == k && (forall j :: i < j < |kvs| ==> kvs[j].0 != k)
          ensures Upserted(m, kvs)[k] == kvs[i].1
        {
          assert init[i] == kvs[i];
        }
      }
    }
  }

  /** `pd.isna(change)` stores None; any other value is stored as it is. */
  function StoredChange(change: Float): (r: Option<Float>)
    ensures r != Some(NaN)
    ensures r.None? <==> change.NaN?
    ensures r.Some? ==> r.value == change
  {
    if change.NaN? then None else Some(change)
  }

  // ---------------------------------------------------------------------
  // The tables
  // ---------------------------------------------------------------------

  /** The `cpi_actuals`, `forecast_runs` and `forecast_points` tables. */
  class CpiStore {
    var actuals: map<Month, CpiActual>
    var runs: map<nat, Run>
    var points: seq<Point<()>>

    /** Points refer to existing runs, and a missing change is stored as None, never as NaN. */
    predicate Valid()
      reads this
    {
      Owned(points, runs.Keys) &&
      forall d :: d in actuals ==> actuals[d].monthlyChange != Some(NaN)
    }

    constructor ()
      ensures actuals == map[] && runs == map[] && points == []
      ensures Valid()
    {
      actuals := map[];
      runs := map[];
      points := [];
    }

    /** Update the row of `date` or add one: the date column is unique. */
    method PutActual(date: Month, a: CpiActual)
      modifies this
      ensures actuals == old(actuals)[date := a]
      ensures runs == old(runs) && points == old(points)
    {
      actuals := actuals[date := a];
    }

    /** `session.add(run); session.flush()`: the run is stored under a fresh id, which is returned. */
    method AddRun(run: Run) returns (id: nat)
      modifies this
      ensures id == FreshId(old(runs).Keys)
      ensures runs == old(runs)[id := run]
      ensures actuals == old(actuals) && points == old(points)
    {
      id := FreshId(runs.Keys);
      runs := runs[id := run];
    }

    /** One `session.add(ForecastPoint(...))` per pair, in order. */
    method AddPoints(id: nat, pairs: seq<(Month, real)>)
      modifies this
      ensures points == old(points) + PointsFor(id, (), pairs)
      ensures actuals == old(actuals) && runs == old(runs)
    {
      for i := 0 to |pairs|
        invariant points == old(points) + PointsFor(id, (), pairs[..i])
        invariant actuals == old(actuals) && runs == old(runs)
      {
        points := points + [Point(id, pairs[i].0, (), pairs[i].1)];
        assert PointsFor(id, (), pairs[..i + 1]) == PointsFor(id, (), pairs[..i]) + [Point(id, pairs[i].0, (), pairs[i].1)];
      }
      assert pairs[..|pairs|] == pairs;
    }

    /**
     * `session.rollback()`, or a session closed without a commit: the run
     * and point tables return to those last committed.
     */
    method Rollback(committedRuns: map<nat, Run>, committedPoints: seq<Point<()>>)
      requires Valid() && Owned(committedPoints, committedRuns.Keys)
      modifies this
      ensures Valid()
      ensures runs == committedRuns && points == committedPoints && actuals == old(actuals)
    {
      runs := committedRuns;
      points := committedPoints;
    }

    /** `query(ForecastPoint).filter(run_id == id).delete()` */
    method DeletePoints(id: nat)
      modifies this
      ensures points == WithoutRun(old(points), id)
      ensures actuals == old(actuals) && runs == old(runs)
    {
      points := WithoutRun(points, id);
    }
  }

  /**
   * A table of category index actuals unique by (date, category), with its
   * forecast runs and points: the wage tables, and the building-cost and
   * producer price tables, which have the same columns.
   */
  class IndexStore {
    var actuals: map<(Month, string), real>
    var runs: map<nat, Run>
    var points: seq<Point<string>>

    /** Points refer to existing runs. */
    predicate Valid()
      reads this
    {
      Owned(points, runs.Keys)
    }

    constructor ()
      ensures actuals == map[] && runs == map[] && points == []
      ensures Valid()
    {
      actuals := map[];
      runs := map[];
      points := [];
    }

    /** Update the row of `(date, category)` or add one: the pair is unique. */
    method PutActual(date: Month, category: string, value: real)
      modifies this
      ensures actuals == old(actuals)[(date, category) := value]
      ensures runs == old(runs) && points == old(points)
    {
      actuals := actuals[(date, category) := value];
    }

    /** `session.add(run); session.flush()`: the run is stored under a fresh id, which is returned. */
    method AddRun(run: Run) returns (id: nat)
      modifies this
      ensures id == FreshId(old(runs).Keys)
      ensures runs == old(runs)[id := run]
      ensures actuals == old(actuals) && points == old(points)
    {
      id := FreshId(runs.Keys);
      runs := runs[id := run];
    }

    /** One `session.add(Point(...))` per pair, each tagged with the run and the category. */
    method AddPoints(id: nat, category: string, pairs: seq<(Month, real)>)
      modifies this
      ensures points == old(points) + PointsFor(id, category, pairs)
      ensures actuals == old(actuals) && runs == old(runs)
    {
      for i := 0 to |pairs|
        invariant points == old(points) + PointsFor(id, category, pairs[..i])
        invariant actuals == old(actuals) && runs == old(runs)
      {
        points := points + [Point(id, pairs[i].0, category, pairs[i].1)];
        assert PointsFor(id, category, pairs[..i + 1]) == PointsFor(id, category, pairs[..i]) + [Point(id, pairs[i].0, category, pairs[i].1)];
      }
      assert pairs[..|pairs|] == pairs;
    }

    /** `session.delete(run)` after `delete(Point).where(run_id == id)`: the run and its points are gone. */
    method DeleteRun(id: nat)
      requires Valid()
      modifies this
      ensures Valid()
      ensures points == WithoutRun(old(points), id)
      ensures runs == old(runs) - {id}
      ensures actuals == old(actuals)
    {
      WithoutRunOwned(points, runs.Keys, id);
      points := WithoutRun(points, id);
      runs := runs - {id};
    }
  }
}
