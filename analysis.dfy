/**
 * Farm-week aggregation (`analyze_compliance`, App.py:246-368): readings
 * get a week (those without one are dropped), are inner-joined to the
 * master table on Farm_ID, grouped by (Farm_ID, Week) in ascending key
 * order, and each group yields one payment row and one monitoring row.
 */
module Analysis {
  import opened Wrappers
  import opened Text
  import opened Grouping
  import opened Flags
  import opened Weeks
  import opened Cleaning
  import opened Compliance

  const RatePerAcre: real := 300.0

  /** The pipe id the source skips. */
  const UnknownPipe: string := "Unknown_Pipe"

  // ---- joining ----

  /** A reading that has a week, joined to one master row of its farm. */
  datatype MergedRow = MergedRow(week: int, water: WaterRow, farm: MasterRow)

  /** `water_df['Week'] = water_df['Date'].apply(assign_week)` followed by `dropna(subset=['Week'])`. */
  function WithWeeks(water: seq<WaterRow>): (out: seq<(int, WaterRow)>)
    ensures forall p :: p in out <==> p.1 in water && AssignWeek(Some(p.1.date)) == Some(p.0)
  {
    if water == [] then []
    else
      var rest := WithWeeks(water[1..]);
      assert forall w :: w in water <==> w == water[0] || w in water[1..];
      match AssignWeek(Some(water[0].date))
      case Some(week) => [(week, water[0])] + rest
      case None => rest
  }

  /** The master rows of one farm, in master order, each joined to the reading. */
  function JoinOne(week: int, w: WaterRow, master: seq<MasterRow>): seq<MergedRow> {
    if master == [] then []
    else
      var rest := JoinOne(week, w, master[1..]);
      if master[0].farmId == w.farmId then [MergedRow(week, w, master[0])] + rest else rest
  }

  /** `water_df.merge(master_df, on='Farm_ID', how='inner')`: reading order first, then master order. */
  function Join(weekly: seq<(int, WaterRow)>, master: seq<MasterRow>): seq<MergedRow> {
    if weekly == [] then []
    else
      var rest := Join(weekly[1..], master);
      JoinOne(weekly[0].0, weekly[0].1, master) + rest
  }

  /** The week filter keeps each reading that has a week once per copy of it, paired with its week. */
  lemma {:induction false} WithWeeksCount(water: seq<WaterRow>)
    ensures forall p :: multiset(WithWeeks(water))[p] ==
                        if AssignWeek(Some(p.1.date)) == Some(p.0) then multiset(water)[p.1] else 0
  {
    if water != [] {
      WithWeeksCount(water[1..]);
      assert water == [water[0]] + water[1..];
    }
  }

  /** A reading joined to the master rows: one joined row per copy of each master row with its Farm_ID. */
  lemma {:induction false} JoinOneCount(week: int, w: WaterRow, master: seq<MasterRow>, r: MergedRow)
    ensures multiset(JoinOne(week, w, master))[r] ==
            if r.week == week && r.water == w && r.farm.farmId == w.farmId then multiset(master)[r.farm] else 0
  {
    if master != [] {
      JoinOneCount(week, w, master[1..], r);
      assert master == [master[0]] + master[1..];
    }
  }

  /**
   * The inner join holds each (reading, master row) pair with the same
   * Farm_ID as many times as the product of their multiplicities.
   */
  lemma {:induction false} JoinCount(weekly: seq<(int, WaterRow)>, master: seq<MasterRow>, r: MergedRow)
    ensures multiset(Join(weekly, master))[r] ==
            if r.farm.farmId == r.water.farmId
            then multiset(weekly)[(r.week, r.water)] * multiset(master)[r.farm] else 0
  {
    if weekly != [] {
      var rest := weekly[1..];
      JoinCount(rest, master, r);
      JoinOneCount(weekly[0].0, weekly[0].1, master, r);
      assert weekly == [weekly[0]] + rest;
      var head := JoinOne(weekly[0].0, weekly[0].1, master);
      assert Join(weekly, master) == head + Join(rest, master);
      var same := weekly[0] == (r.week, r.water);
      assert multiset(weekly)[(r.week, r.water)] == multiset(rest)[(r.week, r.water)] + (if same then 1 else 0);
      CountStep(multiset(weekly)[(r.week, r.water)], multiset(rest)[(r.week, r.water)],
        multiset(head)[r], multiset(master)[r.farm], same, r.farm.farmId == r.water.farmId);
    }
  }

  /** One step of the count of joined rows: a head row adds the master multiplicity once. */
  lemma CountStep(n: int, k: int, h: int, m: int, same: bool, sameFarm: bool)
    requires n == k + (if same then 1 else 0)
    requires h == (if same && sameFarm then m else 0)
    ensures h + (if sameFarm then k * m else 0) == (if sameFarm then n * m else 0)
  {
    if same && sameFarm {
      assert n * m == k * m + m;
    }
  }

  function Merged(master: seq<MasterRow>, water: seq<WaterRow>): seq<MergedRow> {
    Join(WithWeeks(water), master)
  }

  /**
   * The merged table holds a reading with a week joined to a master row
   * of its farm once for each copy of the reading and each copy of the
   * master row, and holds nothing else.
   */
  lemma MergedCount(master: seq<MasterRow>, water: seq<WaterRow>, r: MergedRow)
    ensures multiset(Merged(master, water))[r] ==
      if r.farm.farmId == r.water.farmId && AssignWeek(Some(r.water.date)) == Some(r.week)
      then multiset(water)[r.water] * multiset(master)[r.farm] else 0
  {
    JoinCount(WithWeeks(water), master, r);
    WithWeeksCount(water);
    assert multiset(WithWeeks(water))[(r.week, r.water)] ==
      if AssignWeek(Some(r.water.date)) == Some(r.week) then multiset(water)[r.water] else 0;
  }

  /** A joined row pairs a reading that has a week with a master row of the same farm, and every such pair is joined. */
  lemma MergedRowIff(master: seq<MasterRow>, water: seq<WaterRow>, r: MergedRow)
    ensures r in Merged(master, water) <==>
      && r.water in water && AssignWeek(Some(r.water.date)) == Some(r.week)
      && r.farm in master && r.farm.farmId == r.water.farmId
  {
    MergedCount(master, water, r);
    ProductPositive(multiset(water)[r.water], multiset(master)[r.farm]);
  }

  lemma ProductPositive(a: nat, b: nat)
    ensures a * b > 0 <==> a > 0 && b > 0
  {
    if a > 0 && b > 0 {
      assert a * b >= b;
    }
  }

  // ---- grouping ----

  /** A group key of `groupby(['Farm_ID', 'Week'])`. */
  datatype FarmWeek = FarmWeek(farmId: string, week: int)

  function KeyOf(r: MergedRow): FarmWeek {
    FarmWeek(r.water.farmId, r.week)
  }

  /** pandas' sort order of (Farm_ID, Week) keys. */
  predicate FarmWeekLess(a: FarmWeek, b: FarmWeek) {
    StrLess(a.farmId, b.farmId) || (a.farmId == b.farmId && a.week < b.week)
  }

  lemma StrLessOrder()
    ensures IsStrictTotalOrder(StrLess)
  {
    forall a ensures !StrLess(a, a) { StrLessIrreflexive(a); }
    forall a, b, c | StrLess(a, b) && StrLess(b, c) ensures StrLess(a, c) { StrLessTransitive(a, b, c); }
    forall a, b | a != b ensures StrLess(a, b) || StrLess(b, a) { StrLessTotal(a, b); }
  }

  lemma FarmWeekLessOrder()
    ensures IsStrictTotalOrder(FarmWeekLess)
  {
    StrLessOrder();
  }

  function Keys(merged: seq<MergedRow>): (keys: seq<FarmWeek>)
    ensures |keys| == |merged|
    ensures forall k :: k in keys <==> exists r :: r in merged && KeyOf(r) == k
  {
    if merged == [] then []
    else
      var rest := Keys(merged[1..]);
      assert forall r :: r in merged <==> r == merged[0] || r in merged[1..];
      [KeyOf(merged[0])] + rest
  }

  /** The groups `analyze_compliance` visits: every (farm, week) present, once each, ascending. */
  function FarmWeeks(merged: seq<MergedRow>): (keys: seq<FarmWeek>)
    ensures forall k :: k in keys <==> exists r :: r in merged && KeyOf(r) == k
  {
    GroupKeys(Keys(merged), FarmWeekLess)
  }

  /** The groups come in ascending (Farm_ID, Week) order, each key once. */
  lemma FarmWeeksAscending(merged: seq<MergedRow>)
    ensures StrictlyAscending(FarmWeeks(merged), FarmWeekLess)
    ensures forall i, j :: 0 <= i < |FarmWeeks(merged)| && 0 <= j < |FarmWeeks(merged)| && i != j ==>
      FarmWeeks(merged)[i] != FarmWeeks(merged)[j]
  {
    FarmWeekLessOrder();
    GroupKeysAscending(Keys(merged), FarmWeekLess);
    AscendingIsDistinct(FarmWeeks(merged), FarmWeekLess);
  }

  /** The rows of one group, in merged order. */
  function RowsOf(merged: seq<MergedRow>, key: FarmWeek): (rows: seq<MergedRow>)
    ensures forall r :: r in rows <==> r in merged && KeyOf(r) == key
  {
    if merged == [] then []
    else
      var rest := RowsOf(merged[1..], key);
      assert forall r :: r in merged <==> r == merged[0] || r in merged[1..];
      if KeyOf(merged[0]) == key then [merged[0]] + rest else rest
  }

  /** A group keeps every merged row with its key once per copy, and nothing else. */
  lemma {:induction false} RowsOfCount(merged: seq<MergedRow>, key: FarmWeek)
    ensures forall r :: multiset(RowsOf(merged, key))[r] == (if KeyOf(r) == key then multiset(merged)[r] else 0)
  {
    if merged != [] {
      RowsOfCount(merged[1..], key);
      assert merged == [merged[0]] + merged[1..];
    }
  }

  /** The first row of a group, which supplies `farm_info`, is the first merged row with that key. */
  lemma {:induction false} RowsOfFirst(merged: seq<MergedRow>, key: FarmWeek)
    requires RowsOf(merged, key) != []
    ensures exists i :: 0 <= i < |merged| && merged[i] == RowsOf(merged, key)[0] && KeyOf(merged[i]) == key
                        && forall j :: 0 <= j < i ==> KeyOf(merged[j]) != key
  {
    if KeyOf(merged[0]) != key {
      RowsOfFirst(merged[1..], key);
      var i :| 0 <= i < |merged[1..]| && merged[1..][i] == RowsOf(merged[1..], key)[0] && KeyOf(merged[1..][i]) == key
               && forall j :: 0 <= j < i ==> KeyOf(merged[1..][j]) != key;
      assert merged[i + 1] == RowsOf(merged, key)[0];
      forall j | 0 <= j < i + 1 ensures KeyOf(merged[j]) != key {
        if j > 0 { assert merged[j] == merged[1..][j - 1]; }
      }
    } else {
      assert merged[0] == RowsOf(merged, key)[0];
    }
  }

  /** `m` is the first row of `master`, in table order, with Farm_ID `farmId`. */
  ghost predicate FirstOfFarm(master: seq<MasterRow>, farmId: string, m: MasterRow) {
    exists i :: 0 <= i < |master| && master[i] == m && m.farmId == farmId
                && forall j :: 0 <= j < i ==> master[j].farmId != farmId
  }

  lemma {:induction false} RowsOfConcat(a: seq<MergedRow>, b: seq<MergedRow>, key: FarmWeek)
    ensures RowsOf(a + b, key) == RowsOf(a, key) + RowsOf(b, key)
  {
    if a == [] {
      assert a + b == b;
    } else {
      assert (a + b)[0] == a[0] && (a + b)[1..] == a[1..] + b;
      RowsOfConcat(a[1..], b, key);
    }
  }

  /** The rows one reading is joined to all share its key. */
  lemma {:induction false} RowsOfJoinOne(week: int, w: WaterRow, master: seq<MasterRow>, key: FarmWeek)
    ensures RowsOf(JoinOne(week, w, master), key) ==
            if FarmWeek(w.farmId, week) == key then JoinOne(week, w, master) else []
  {
    if master != [] {
      RowsOfJoinOne(week, w, master[1..], key);
      var rest := JoinOne(week, w, master[1..]);
      if master[0].farmId == w.farmId {
        assert ([MergedRow(week, w, master[0])] + rest)[1..] == rest;
      }
    }
  }

  /** A reading's first joined row carries the first master row of its farm. */
  lemma {:induction false} JoinOneFirst(week: int, w: WaterRow, master: seq<MasterRow>)
    requires JoinOne(week, w, master) != []
    ensures FirstOfFarm(master, w.farmId, JoinOne(week, w, master)[0].farm)
  {
    if master[0].farmId == w.farmId {
      assert master[0] == JoinOne(week, w, master)[0].farm;
    } else {
      var tail := master[1..];
      JoinOneFirst(week, w, tail);
      var i :| 0 <= i < |tail| && tail[i] == JoinOne(week, w, tail)[0].farm && tail[i].farmId == w.farmId
               && forall j :: 0 <= j < i ==> tail[j].farmId != w.farmId;
      assert master[i + 1] == tail[i];
      forall j | 0 <= j < i + 1 ensures master[j].farmId != w.farmId {
        if j > 0 { assert master[j] == tail[j - 1]; }
      }
    }
  }

  /** Whichever reading opens a group of the join, its master row is the first one of the farm. */
  lemma {:induction false} JoinFirst(weekly: seq<(int, WaterRow)>, master: seq<MasterRow>, key: FarmWeek)
    requires RowsOf(Join(weekly, master), key) != []
    ensures FirstOfFarm(master, key.farmId, RowsOf(Join(weekly, master), key)[0].farm)
  {
    var head := JoinOne(weekly[0].0, weekly[0].1, master);
    var rest := Join(weekly[1..], master);
    assert Join(weekly, master) == head + rest;
    RowsOfConcat(head, rest, key);
    RowsOfJoinOne(weekly[0].0, weekly[0].1, master, key);
    if RowsOf(head, key) != [] {
      JoinOneFirst(weekly[0].0, weekly[0].1, master);
    } else {
      JoinFirst(weekly[1..], master, key);
    }
  }

  /**
   * `farm_info`, the first row of a group, carries the first master row,
   * in table order, whose Farm_ID is the group's: when a Farm_ID repeats
   * in the master table, that row's acres, village, name and group are
   * the ones paid on.
   */
  lemma FarmInfoFirstMaster(master: seq<MasterRow>, water: seq<WaterRow>, key: FarmWeek)
    requires key in FarmWeeks(Merged(master, water))
    ensures RowsOf(Merged(master, water), key) != []
    ensures FirstOfFarm(master, key.farmId, RowsOf(Merged(master, water), key)[0].farm)
  {
    KeyHasRows(Merged(master, water), key);
    JoinFirst(WithWeeks(water), master, key);
  }

  /** The pipe ids of a group, once each, ascending: `group_data.groupby('Pipe_ID')`. */
  function PipeIds(rows: seq<MergedRow>): (pipes: seq<string>)
    ensures forall p :: p in pipes <==> exists r :: r in rows && r.water.pipeId == p
  {
    GroupKeys(PipeColumn(rows), StrLess)
  }

  /** A group's pipes come in ascending id order, each once. */
  lemma PipeIdsAscending(rows: seq<MergedRow>)
    ensures StrictlyAscending(PipeIds(rows), StrLess)
    ensures forall i, j :: 0 <= i < |PipeIds(rows)| && 0 <= j < |PipeIds(rows)| && i != j ==>
      PipeIds(rows)[i] != PipeIds(rows)[j]
  {
    StrLessOrder();
    GroupKeysAscending(PipeColumn(rows), StrLess);
    AscendingIsDistinct(PipeIds(rows), StrLess);
  }

  function PipeColumn(rows: seq<MergedRow>): (col: seq<string>)
    ensures forall p :: p in col <==> exists r :: r in rows && r.water.pipeId == p
  {
    if rows == [] then []
    else
      var rest := PipeColumn(rows[1..]);
      assert forall r :: r in rows <==> r == rows[0] || r in rows[1..];
      [rows[0].water.pipeId] + rest
  }

  /** The readings of one pipe in a group, as (date, level). */
  function ReadingsOf(rows: seq<MergedRow>, pipe: string): (rs: seq<Reading>)
    ensures forall x :: x in rs <==> exists r :: r in rows && r.water.pipeId == pipe && x == Reading(r.water.date, r.water.level)
  {
    if rows == [] then []
    else
      var rest := ReadingsOf(rows[1..], pipe);
      assert forall r :: r in rows <==> r == rows[0] || r in rows[1..];
      if rows[0].water.pipeId == pipe then [Reading(rows[0].water.date, rows[0].water.level)] + rest else rest
  }

  /**
   * The groups after the week filter and the inner join are exactly the
   * (Farm_ID, week) pairs of readings that have a week and whose farm is
   * in the master table.
   */
  lemma FarmWeeksIff(master: seq<MasterRow>, water: seq<WaterRow>, key: FarmWeek)
    ensures key in FarmWeeks(Merged(master, water)) <==>
      exists w, m :: w in water && m in master && m.farmId == w.farmId && w.farmId == key.farmId
                     && AssignWeek(Some(w.date)) == Some(key.week)
  {
    var merged := Merged(master, water);
    if key in FarmWeeks(merged) {
      var r :| r in merged && KeyOf(r) == key;
      MergedRowIff(master, water, r);
      assert r.water in water && r.farm in master;
    }
    if exists w, m :: w in water && m in master && m.farmId == w.farmId && w.farmId == key.farmId
                      && AssignWeek(Some(w.date)) == Some(key.week) {
      var w, m :| w in water && m in master && m.farmId == w.farmId && w.farmId == key.farmId
                  && AssignWeek(Some(w.date)) == Some(key.week);
      var r := MergedRow(key.week, w, m);
      MergedRowIff(master, water, r);
      assert KeyOf(r) == key;
    }
  }

  /** A pipe has one reading per row of the group on that pipe: `len(measurements)`. */
  lemma {:induction false} ReadingsOfCount(rows: seq<MergedRow>, pipe: string)
    ensures |ReadingsOf(rows, pipe)| == multiset(PipeColumn(rows))[pipe]
  {
    if rows != [] {
      ReadingsOfCount(rows[1..], pipe);
      assert PipeColumn(rows) == [rows[0].water.pipeId] + PipeColumn(rows[1..]);
    }
  }

  /**
   * `rs` lists, in order, the readings of the rows of `rows` on `pipe`:
   * reading k comes from row `idx[k]`, the positions ascend, and every row
   * on the pipe has one.
   */
  ghost predicate Positions(rows: seq<MergedRow>, pipe: string, rs: seq<Reading>, idx: seq<int>) {
    && |idx| == |rs|
    && (forall k :: 0 <= k < |idx| ==>
          && 0 <= idx[k] < |rows| && rows[idx[k]].water.pipeId == pipe
          && rs[k] == Reading(rows[idx[k]].water.date, rows[idx[k]].water.level))
    && (forall k, l :: 0 <= k < l < |idx| ==> idx[k] < idx[l])
    && (forall i :: 0 <= i < |rows| && rows[i].water.pipeId == pipe ==> i in idx)
  }

  /** A pipe's readings are those of the group's rows on that pipe, in row order, one per row. */
  lemma {:induction false} ReadingsOfPositions(rows: seq<MergedRow>, pipe: string) returns (idx: seq<int>)
    ensures Positions(rows, pipe, ReadingsOf(rows, pipe), idx)
  {
    if rows == [] {
      idx := [];
    } else {
      var rt := ReadingsOf(rows[1..], pipe);
      var t := ReadingsOfPositions(rows[1..], pipe);
      assert ReadingsOf(rows, pipe) ==
        (if rows[0].water.pipeId == pipe then [Reading(rows[0].water.date, rows[0].water.level)] else []) + rt;
      idx := PositionsCons(rows, pipe, rt, t);
    }
  }

  /** Positions on the tail, shifted by one, with row 0 in front when it is on the pipe. */
  lemma PositionsCons(rows: seq<MergedRow>, pipe: string, rt: seq<Reading>, t: seq<int>) returns (idx: seq<int>)
    requires rows != [] && Positions(rows[1..], pipe, rt, t)
    ensures Positions(rows, pipe,
      (if rows[0].water.pipeId == pipe then [Reading(rows[0].water.date, rows[0].water.level)] else []) + rt, idx)
  {
    var shifted := ShiftPositions(rows, pipe, rt, t);
    if rows[0].water.pipeId == pipe {
      idx := PrependPosition(rows, pipe, rt, shifted);
    } else {
      idx := shifted;
      TailIsPositions(rows, pipe, rt, idx);
      assert [] + rt == rt;
    }
  }

  /** The tail's positions, moved up by one: every row after row 0 on the pipe, in order. */
  ghost predicate TailPositions(rows: seq<MergedRow>, pipe: string, rs: seq<Reading>, idx: seq<int>) {
    && |idx| == |rs|
    && (forall k :: 0 <= k < |idx| ==>
          && 1 <= idx[k] < |rows| && rows[idx[k]].water.pipeId == pipe
          && rs[k] == Reading(rows[idx[k]].water.date, rows[idx[k]].water.level))
    && (forall k, l :: 0 <= k < l < |idx| ==> idx[k] < idx[l])
    && (forall i :: 1 <= i < |rows| && rows[i].water.pipeId == pipe ==> i in idx)
  }

  /** Every position moved up by one. */
  function Shift(t: seq<int>): (r: seq<int>)
    ensures |r| == |t| && forall k :: 0 <= k < |t| ==> r[k] == t[k] + 1
  {
    seq(|t|, k requires 0 <= k < |t| => t[k] + 1)
  }

  lemma ShiftPositions(rows: seq<MergedRow>, pipe: string, rt: seq<Reading>, t: seq<int>) returns (shifted: seq<int>)
    requires rows != [] && Positions(rows[1..], pipe, rt, t)
    ensures TailPositions(rows, pipe, rt, shifted)
  {
    shifted := Shift(t);
    ShiftRows(rows, pipe, rt, t);
    ShiftAscends(t);
    ShiftCovers(rows, pipe, rt, t);
  }

  lemma ShiftRows(rows: seq<MergedRow>, pipe: string, rt: seq<Reading>, t: seq<int>)
    requires rows != [] && Positions(rows[1..], pipe, rt, t)
    ensures forall k :: 0 <= k < |Shift(t)| ==>
      && 1 <= Shift(t)[k] < |rows| && rows[Shift(t)[k]].water.pipeId == pipe
      && rt[k] == Reading(rows[Shift(t)[k]].water.date, rows[Shift(t)[k]].water.level)
  {
    forall k | 0 <= k < |t| ensures rows[t[k] + 1] == rows[1..][t[k]] { }
  }

  lemma ShiftAscends(t: seq<int>)
    requires forall k, l :: 0 <= k < l < |t| ==> t[k] < t[l]
    ensures forall k, l :: 0 <= k < l < |Shift(t)| ==> Shift(t)[k] < Shift(t)[l]
  {
  }

  lemma ShiftCovers(rows: seq<MergedRow>, pipe: string, rt: seq<Reading>, t: seq<int>)
    requires rows != [] && Positions(rows[1..], pipe, rt, t)
    ensures forall i :: 1 <= i < |rows| && rows[i].water.pipeId == pipe ==> i in Shift(t)
  {
    forall i | 1 <= i < |rows| && rows[i].water.pipeId == pipe ensures i in Shift(t) {
      assert rows[1..][i - 1] == rows[i];
      var k :| 0 <= k < |t| && t[k] == i - 1;
      assert Shift(t)[k] == i;
    }
  }

  lemma TailIsPositions(rows: seq<MergedRow>, pipe: string, rs: seq<Reading>, idx: seq<int>)
    requires rows != [] && rows[0].water.pipeId != pipe && TailPositions(rows, pipe, rs, idx)
    ensures Positions(rows, pipe, rs, idx)
  {
    forall i | 0 <= i < |rows| && rows[i].water.pipeId == pipe ensures i in idx {
      assert i != 0;
    }
  }

  lemma PrependPosition(rows: seq<MergedRow>, pipe: string, rt: seq<Reading>, shifted: seq<int>) returns (idx: seq<int>)
    requires rows != [] && rows[0].water.pipeId == pipe && TailPositions(rows, pipe, rt, shifted)
    ensures Positions(rows, pipe, [Reading(rows[0].water.date, rows[0].water.level)] + rt, idx)
  {
    var rs := [Reading(rows[0].water.date, rows[0].water.level)] + rt;
    idx := [0] + shifted;
    forall k | 0 <= k < |idx| ensures
      && 0 <= idx[k] < |rows| && rows[idx[k]].water.pipeId == pipe
      && rs[k] == Reading(rows[idx[k]].water.date, rows[idx[k]].water.level)
    {
      if k > 0 { assert idx[k] == shifted[k - 1] && rs[k] == rt[k - 1]; }
    }
    forall k, l | 0 <= k < l < |idx| ensures idx[k] < idx[l] {
      assert idx[l] == shifted[l - 1];
      if k > 0 { assert idx[k] == shifted[k - 1]; }
    }
    forall i | 0 <= i < |rows| && rows[i].water.pipeId == pipe ensures i in idx {
      if i > 0 { assert i in shifted; }
    }
  }

  // ---- per-pipe results ----

  /** What the source reports for one pipe: its id, its readings by date, the day gap, and its verdict. */
  datatype PipeSummary = PipeSummary(pipeId: string, readings: seq<Reading>, gapDays: int, verdict: Verdict)

  /** One entry of the comments list. */
  datatype Comment = Comment(pipeId: string, reason: Reason)

  function SummaryOf(rows: seq<MergedRow>, pipe: string): PipeSummary {
    var sorted := SortByDay(ReadingsOf(rows, pipe));
    PipeSummary(pipe, sorted, GapDays(sorted), Evaluate(sorted))
  }

  /** The summaries of the pipes in `pipes` that are counted, in order. */
  function Summaries(rows: seq<MergedRow>, pipes: seq<string>): (ss: seq<PipeSummary>)
    ensures |ss| <= |pipes|
  {
    if pipes == [] then []
    else
      var last := pipes[|pipes| - 1];
      Summaries(rows, pipes[..|pipes| - 1]) + (if last == UnknownPipe then [] else [SummaryOf(rows, last)])
  }

  function CompliantCount(ss: seq<PipeSummary>): (n: nat)
    ensures n <= |ss|
  {
    if ss == [] then 0
    else CompliantCount(ss[..|ss| - 1]) + (if ss[|ss| - 1].verdict == Compliant then 1 else 0)
  }

  function CommentsOf(ss: seq<PipeSummary>): seq<Comment> {
    if ss == [] then []
    else
      var last := ss[|ss| - 1];
      CommentsOf(ss[..|ss| - 1]) + (if last.verdict.NonCompliant? then [Comment(last.pipeId, last.verdict.reason)] else [])
  }

  /**
   * The summaries are of pipe ids other than "Unknown_Pipe", every such id
   * has its summary, and each summary is that pipe's own result.
   */
  lemma {:induction false} SummariesCover(rows: seq<MergedRow>, pipes: seq<string>)
    ensures forall s :: s in Summaries(rows, pipes) ==>
      s.pipeId in pipes && s.pipeId != UnknownPipe && s == SummaryOf(rows, s.pipeId)
    ensures forall p :: p in pipes && p != UnknownPipe ==> SummaryOf(rows, p) in Summaries(rows, pipes)
  {
    if pipes != [] {
      var init := pipes[..|pipes| - 1];
      SummariesCover(rows, init);
      assert forall p :: p in pipes <==> p in init || p == pipes[|pipes| - 1];
    }
  }

  /** `pipes` without "Unknown_Pipe", in order: the pipes the loop counts. */
  function CountedPipes(pipes: seq<string>): (c: seq<string>)
    ensures forall p :: p in c <==> p in pipes && p != UnknownPipe
  {
    if pipes == [] then []
    else
      var init, last := pipes[..|pipes| - 1], pipes[|pipes| - 1];
      assert forall p :: p in pipes <==> p in init || p == last;
      CountedPipes(init) + (if last == UnknownPipe then [] else [last])
  }

  /** The summaries are those of the counted pipes, one per pipe, in the same order. */
  lemma {:induction false} SummariesOfCounted(rows: seq<MergedRow>, pipes: seq<string>)
    ensures |Summaries(rows, pipes)| == |CountedPipes(pipes)|
    ensures forall i :: 0 <= i < |CountedPipes(pipes)| ==>
      Summaries(rows, pipes)[i] == SummaryOf(rows, CountedPipes(pipes)[i])
  {
    if pipes != [] {
      var init := pipes[..|pipes| - 1];
      SummariesOfCounted(rows, init);
    }
  }

  /** Leaving ids out keeps them distinct. */
  lemma {:induction false} CountedDistinct(pipes: seq<string>)
    requires Distinct(pipes)
    ensures Distinct(CountedPipes(pipes))
  {
    if pipes != [] {
      var init, last := pipes[..|pipes| - 1], pipes[|pipes| - 1];
      assert Distinct(init) by {
        forall i, j | 0 <= i < |init| && 0 <= j < |init| && i != j ensures init[i] != init[j] {
          assert init[i] == pipes[i] && init[j] == pipes[j];
        }
      }
      CountedDistinct(init);
      assert last !in init by {
        forall i | 0 <= i < |init| ensures init[i] != last {
          assert init[i] == pipes[i];
        }
      }
      assert last !in CountedPipes(init);
    }
  }

  /**
   * `total_pipes` of a group is the number of distinct pipe ids among its
   * rows other than "Unknown_Pipe": each such pipe is counted exactly once.
   */
  lemma TotalPipesCount(rows: seq<MergedRow>)
    ensures |Summaries(rows, PipeIds(rows))| == |set r | r in rows && r.water.pipeId != UnknownPipe :: r.water.pipeId|
  {
    var pipes := PipeIds(rows);
    PipeIdsAscending(rows);
    assert Distinct(pipes);
    CountedDistinct(pipes);
    DistinctCardinality(CountedPipes(pipes));
    SummariesOfCounted(rows, pipes);
    var ids := set r | r in rows && r.water.pipeId != UnknownPipe :: r.water.pipeId;
    assert (set x | x in CountedPipes(pipes)) == ids by {
      forall x | x in CountedPipes(pipes) ensures x in ids {
        var r :| r in rows && r.water.pipeId == x;
      }
    }
  }

  /** Each non-compliant pipe gives one comment with its reason; compliant pipes give none. */
  lemma {:induction false} CommentsCount(ss: seq<PipeSummary>)
    ensures |CommentsOf(ss)| + CompliantCount(ss) == |ss|
    ensures forall c :: c in CommentsOf(ss) ==> exists s :: s in ss && s.pipeId == c.pipeId && s.verdict == NonCompliant(c.reason)
    ensures forall s :: s in ss && s.verdict.NonCompliant? ==> Comment(s.pipeId, s.verdict.reason) in CommentsOf(ss)
  {
    if ss != [] {
      var init := ss[..|ss| - 1];
      CommentsCount(init);
      assert forall s :: s in ss <==> s in init || s == ss[|ss| - 1];
    }
  }

  /** No two summaries are of the same pipe. */
  ghost predicate DistinctIds(ss: seq<PipeSummary>) {
    forall i, j :: 0 <= i < |ss| && 0 <= j < |ss| && i != j ==> ss[i].pipeId != ss[j].pipeId
  }

  /** With one summary per pipe, each failing pipe has exactly one comment. */
  lemma {:induction false} CommentsOnce(ss: seq<PipeSummary>)
    requires DistinctIds(ss)
    ensures forall s :: s in ss && s.verdict.NonCompliant? ==> multiset(CommentsOf(ss))[Comment(s.pipeId, s.verdict.reason)] == 1
  {
    if ss != [] {
      var init, last := ss[..|ss| - 1], ss[|ss| - 1];
      DistinctIdsInit(ss);
      CommentsOnce(init);
      NoCommentFor(init, last.pipeId);
      var tail := if last.verdict.NonCompliant? then [Comment(last.pipeId, last.verdict.reason)] else [];
      assert CommentsOf(ss) == CommentsOf(init) + tail;
      assert ss == init + [last];
      forall s | s in ss && s.verdict.NonCompliant?
        ensures multiset(CommentsOf(ss))[Comment(s.pipeId, s.verdict.reason)] == 1
      {
        if s != last {
          assert s in init && s.pipeId != last.pipeId;
        }
      }
    }
  }

  lemma DistinctIdsInit(ss: seq<PipeSummary>)
    requires ss != [] && DistinctIds(ss)
    ensures DistinctIds(ss[..|ss| - 1])
    ensures forall s :: s in ss[..|ss| - 1] ==> s.pipeId != ss[|ss| - 1].pipeId
  {
    var init := ss[..|ss| - 1];
    forall i, j | 0 <= i < |init| && 0 <= j < |init| && i != j ensures init[i].pipeId != init[j].pipeId {
      assert init[i] == ss[i] && init[j] == ss[j];
    }
    forall s | s in init ensures s.pipeId != ss[|ss| - 1].pipeId {
      var i :| 0 <= i < |init| && init[i] == s;
      assert ss[i] == s;
    }
  }

  /** A pipe without a summary has no comment. */
  lemma NoCommentFor(ss: seq<PipeSummary>, pipe: string)
    requires forall s :: s in ss ==> s.pipeId != pipe
    ensures forall r :: multiset(CommentsOf(ss))[Comment(pipe, r)] == 0
  {
    CommentsCount(ss);
  }

  /** In a group, every failing pipe gets exactly one comment. */
  lemma GroupCommentsOnce(rows: seq<MergedRow>)
    ensures forall s :: s in Summaries(rows, PipeIds(rows)) && s.verdict.NonCompliant? ==>
      multiset(CommentsOf(Summaries(rows, PipeIds(rows))))[Comment(s.pipeId, s.verdict.reason)] == 1
  {
    var pipes := PipeIds(rows);
    var ss := Summaries(rows, pipes);
    PipeIdsAscending(rows);
    assert Distinct(pipes);
    CountedDistinct(pipes);
    SummariesOfCounted(rows, pipes);
    assert DistinctIds(ss) by {
      forall i, j | 0 <= i < |ss| && 0 <= j < |ss| && i != j ensures ss[i].pipeId != ss[j].pipeId {
        assert ss[i].pipeId == CountedPipes(pipes)[i] && ss[j].pipeId == CountedPipes(pipes)[j];
      }
    }
    CommentsOnce(ss);
  }

  /** A pipe of a group has at least one reading, so "no measurements" never comes up. */
  lemma PipeHasReadings(rows: seq<MergedRow>, pipe: string)
    requires pipe in PipeIds(rows)
    ensures ReadingsOf(rows, pipe) != []
    ensures SummaryOf(rows, pipe).verdict != NonCompliant(NoMeasurements)
  {
    var r :| r in rows && r.water.pipeId == pipe;
    assert Reading(r.water.date, r.water.level) in ReadingsOf(rows, pipe);
  }

  /** A group counts no pipe exactly when every one of its readings is on "Unknown_Pipe". */
  lemma NoPipesCounted(rows: seq<MergedRow>)
    ensures Summaries(rows, PipeIds(rows)) == [] <==> forall r :: r in rows ==> r.water.pipeId == UnknownPipe
  {
    var pipes := PipeIds(rows);
    SummariesCover(rows, pipes);
    var ss := Summaries(rows, pipes);
    if ss != [] {
      assert ss[0] in ss;
      var r :| r in rows && r.water.pipeId == ss[0].pipeId;
    }
    if exists r :: r in rows && r.water.pipeId != UnknownPipe {
      var r :| r in rows && r.water.pipeId != UnknownPipe;
      assert r.water.pipeId in pipes;
    }
  }

  // ---- payment ----

  datatype Payout = Payout(rate: real, eligibleAcres: real, payment: real)

  /** App.py:329-336, as computed. */
  function ComputePayout(total: nat, compliant: nat, acres: real): Payout {
    if total > 0 then
      var rate := (compliant as real) / (total as real);
      var eligible := rate * acres;
      Payout(rate, eligible, eligible * RatePerAcre)
    else Payout(0.0, 0.0, 0.0)
  }

  /**
   * The payout arithmetic: rate = compliant / total when some pipe was
   * counted, eligible acres = rate * acres, payment = 300 per eligible acre;
   * nothing counted means all three are 0. With compliant <= total the rate
   * lies in [0, 1] and the eligible acres in [0, acres]; payment does not
   * depend on the group.
   */
  lemma PayoutFacts(total: nat, compliant: nat, acres: real)
    ensures var p := ComputePayout(total, compliant, acres);
      && p.eligibleAcres == p.rate * acres && p.payment == RatePerAcre * p.eligibleAcres
      && (total == 0 ==> p == Payout(0.0, 0.0, 0.0))
      && (total > 0 ==> p.rate * (total as real) == compliant as real)
      && (compliant <= total ==> 0.0 <= p.rate <= 1.0)
      && (compliant <= total && acres >= 0.0 ==> 0.0 <= p.eligibleAcres <= acres)
      && (0 < total == compliant ==> p.eligibleAcres == acres)
  {
    var p := ComputePayout(total, compliant, acres);
    if total > 0 {
      if compliant <= total && acres >= 0.0 {
        assert p.rate <= 1.0;
        MulMono(p.rate, 1.0, acres);
      }
      if total == compliant {
        DivSelf(total as real);
      }
    }
  }

  lemma DivSelf(x: real)
    requires x > 0.0
    ensures x / x == 1.0
  {
  }

  lemma MulMono(a: real, b: real, c: real)
    requires a <= b && c >= 0.0
    ensures a * c <= b * c
  {
  }

  /** One row of the payment table. */
  datatype PaymentRow = PaymentRow(
    week: int, village: string, farmId: string, farmerName: string, group: Group,
    totalAcres: real, totalPipes: nat, compliantPipes: nat,
    complianceRate: real, eligibleAcres: real, payment: real)

  /** One row of the monitoring table; no comments stands for "All compliant". */
  datatype MonitoringRow = MonitoringRow(
    week: string, village: string, farmerId: string, farmerName: string, group: Group,
    acres: real, pipeDetails: seq<PipeSummary>, comments: seq<Comment>)

  /** The arithmetic every payment row keeps. */
  predicate PaymentInvariant(p: PaymentRow) {
    && p.compliantPipes <= p.totalPipes
    && 0.0 <= p.complianceRate <= 1.0
    && p.eligibleAcres == p.complianceRate * p.totalAcres
    && p.payment == RatePerAcre * p.eligibleAcres
    && (p.totalPipes == 0 ==> p.complianceRate == 0.0 && p.eligibleAcres == 0.0 && p.payment == 0.0)
    && (p.totalAcres >= 0.0 ==> 0.0 <= p.eligibleAcres <= p.totalAcres)
  }

  /** The display text `"<start> to <end>"` of the first period numbered `week`, or "". */
  function FindDisplay(periods: seq<WeekPeriod>, week: int): string {
    if periods == [] then ""
    else if periods[0].week == week then periods[0].startLabel + " to " + periods[0].endLabel
    else FindDisplay(periods[1..], week)
  }

  /** The week display of App.py:265. */
  function WeekDisplay(week: int): string {
    FindDisplay(WeekPeriods, week)
  }

  /** `next(...)` picks the first period with that number, and "" when there is none. */
  lemma {:induction false} FindDisplayFirst(periods: seq<WeekPeriod>, week: int, i: int)
    requires 0 <= i < |periods| && periods[i].week == week
    requires forall j :: 0 <= j < i ==> periods[j].week != week
    ensures FindDisplay(periods, week) == periods[i].startLabel + " to " + periods[i].endLabel
  {
    if i > 0 {
      FindDisplayFirst(periods[1..], week, i - 1);
    }
  }

  lemma {:induction false} FindDisplayNone(periods: seq<WeekPeriod>, week: int)
    requires forall j :: 0 <= j < |periods| ==> periods[j].week != week
    ensures FindDisplay(periods, week) == ""
  {
    if periods != [] {
      FindDisplayNone(periods[1..], week);
    }
  }

  /** Week k + 1 is labelled "<start> to <end>" from row k of the table; a number outside 1..18 gets "". */
  lemma WeekDisplayLabels(week: int)
    ensures 1 <= week <= 18 ==>
      WeekDisplay(week) == WeekPeriods[week - 1].startLabel + " to " + WeekPeriods[week - 1].endLabel
    ensures (week < 1 || week > 18) ==> WeekDisplay(week) == ""
  {
    WeekPeriodsShape();
    assert forall j :: 0 <= j < |WeekPeriods| ==> WeekPeriods[j].week == j + 1;
    if 1 <= week <= 18 {
      FindDisplayFirst(WeekPeriods, week, week - 1);
    } else {
      FindDisplayNone(WeekPeriods, week);
    }
  }

  /** A payment row from the group's farm details and pipe counts. */
  function MakePayment(key: FarmWeek, farm: MasterRow, totalPipes: nat, compliantPipes: nat): PaymentRow {
    var p := ComputePayout(totalPipes, compliantPipes, farm.acres);
    PaymentRow(key.week, farm.village, key.farmId, farm.farmerName, farm.group,
      farm.acres, totalPipes, compliantPipes, p.rate, p.eligibleAcres, p.payment)
  }

  /** The payment row of the group `key` with rows `rows`; `farm_info` is its first row. */
  function PaymentOf(key: FarmWeek, rows: seq<MergedRow>): PaymentRow
    requires rows != []
  {
    var ss := Summaries(rows, PipeIds(rows));
    MakePayment(key, rows[0].farm, |ss|, CompliantCount(ss))
  }

  function MonitoringOf(key: FarmWeek, rows: seq<MergedRow>): MonitoringRow
    requires rows != []
  {
    var farm := rows[0].farm;
    var ss := Summaries(rows, PipeIds(rows));
    MonitoringRow(WeekDisplay(key.week), farm.village, key.farmId, farm.farmerName, farm.group,
      farm.acres, ss, CommentsOf(ss))
  }

  /** Every group key has rows. */
  lemma KeyHasRows(merged: seq<MergedRow>, key: FarmWeek)
    requires key in FarmWeeks(merged)
    ensures RowsOf(merged, key) != []
  {
    var r :| r in merged && KeyOf(r) == key;
    assert r in RowsOf(merged, key);
  }

  /** Every payment row of the specification keeps the payment arithmetic. */
  lemma PaymentOfInvariant(key: FarmWeek, rows: seq<MergedRow>)
    requires rows != []
    ensures PaymentInvariant(PaymentOf(key, rows))
  {
    var ss := Summaries(rows, PipeIds(rows));
    MakePaymentInvariant(key, rows[0].farm, |ss|, CompliantCount(ss));
  }

  /**
   * End to end: with a master table as cleaned, every farm-week is paid on
   * non-negative acres, its eligible acres lie between 0 and its acres, and
   * its payment between 0 and 300 per acre.
   */
  lemma PaymentWithinAcres(t: Table, water: seq<WaterRow>, key: FarmWeek)
    requires CleanMaster(t).Success?
    requires key in FarmWeeks(Merged(CleanMaster(t).value, water))
    ensures var merged := Merged(CleanMaster(t).value, water);
      RowsOf(merged, key) != [] &&
      var p := PaymentOf(key, RowsOf(merged, key));
      && 0.0 <= p.totalAcres
      && 0.0 <= p.eligibleAcres <= p.totalAcres
      && 0.0 <= p.payment <= RatePerAcre * p.totalAcres
  {
    var master := CleanMaster(t).value;
    var merged := Merged(master, water);
    KeyHasRows(merged, key);
    var rows := RowsOf(merged, key);
    assert rows[0] in rows;
    MergedRowIff(master, water, rows[0]);
    var i :| 0 <= i < |master| && master[i] == rows[0].farm;
    PaymentOfInvariant(key, rows);
  }

  lemma MakePaymentInvariant(key: FarmWeek, farm: MasterRow, totalPipes: nat, compliantPipes: nat)
    requires compliantPipes <= totalPipes
    ensures PaymentInvariant(MakePayment(key, farm, totalPipes, compliantPipes))
  {
    PayoutFacts(totalPipes, compliantPipes, farm.acres);
  }

  /** Taking one more pipe id adds its summary unless it is "Unknown_Pipe". */
  lemma SummariesStep(rows: seq<MergedRow>, pipes: seq<string>, j: nat)
    requires j < |pipes|
    ensures Summaries(rows, pipes[..j + 1]) ==
      Summaries(rows, pipes[..j]) + (if pipes[j] == UnknownPipe then [] else [SummaryOf(rows, pipes[j])])
  {
    assert pipes[..j + 1][..j] == pipes[..j];
  }

  /** Appending one summary adds to the count when it is compliant and to the comments otherwise. */
  lemma CountsStep(ss: seq<PipeSummary>, s: PipeSummary)
    ensures CompliantCount(ss + [s]) == CompliantCount(ss) + (if s.verdict == Compliant then 1 else 0)
    ensures CommentsOf(ss + [s]) ==
      CommentsOf(ss) + (if s.verdict.NonCompliant? then [Comment(s.pipeId, s.verdict.reason)] else [])
  {
    assert (ss + [s])[..|ss|] == ss;
  }

  /**
   * One pipe's readings sorted by date, their day gap and their verdict (App.py:277-317).
   * Only splits the proof of AnalyzePipes: the ensures repeats the body.
   */
  method SummarizePipe(rows: seq<MergedRow>, pipe: string) returns (summary: PipeSummary)
    ensures summary == SummaryOf(rows, pipe)
  {
    var readings := SortByDay(ReadingsOf(rows, pipe));
    summary := PipeSummary(pipe, readings, GapDays(readings), Evaluate(readings));
  }

  /**
   * The pipe loop of `analyze_compliance` (App.py:273-322) over one group:
   * counts the pipes it does not skip and the compliant ones, and collects
   * each counted pipe's summary and each failing pipe's comment.
   */
  method AnalyzePipes(rows: seq<MergedRow>)
    returns (summaries: seq<PipeSummary>, comments: seq<Comment>, totalPipes: nat, compliantPipes: nat)
    ensures summaries == Summaries(rows, PipeIds(rows))
    ensures totalPipes == |summaries| && compliantPipes == CompliantCount(summaries)
    ensures comments == CommentsOf(summaries)
    ensures compliantPipes <= totalPipes
  {
    var pipes := PipeIds(rows);
    summaries, comments := [], [];
    totalPipes, compliantPipes := 0, 0;
    var j := 0;
    while j < |pipes|
      invariant 0 <= j <= |pipes|
      invariant summaries == Summaries(rows, pipes[..j])
      invariant totalPipes == |summaries| && compliantPipes == CompliantCount(summaries)
      invariant comments == CommentsOf(summaries)
    {
      var pipe := pipes[j];
      SummariesStep(rows, pipes, j);
      if pipe != UnknownPipe {
        totalPipes := totalPipes + 1;
        var summary := SummarizePipe(rows, pipe);
        var verdict := summary.verdict;
        if verdict == Compliant {
          compliantPipes := compliantPipes + 1;
        } else {
          comments := comments + [Comment(pipe, verdict.reason)];
        }
        CountsStep(summaries, summary);
        summaries := summaries + [summary];
      }
      j := j + 1;
    }
    assert pipes[..|pipes|] == pipes;
  }

  /**
   * The body of the group loop (App.py:261-363): the payment row and the
   * monitoring row of one (Farm_ID, Week) group, whose first row supplies
   * the farm's details.
   */
  method AnalyzeFarmWeek(key: FarmWeek, rows: seq<MergedRow>) returns (payment: PaymentRow, report: MonitoringRow)
    requires rows != []
    ensures payment == PaymentOf(key, rows) && report == MonitoringOf(key, rows)
    ensures PaymentInvariant(payment)
  {
    var farm := rows[0].farm;
    var summaries, comments, totalPipes, compliantPipes := AnalyzePipes(rows);
    var payout := ComputePayout(totalPipes, compliantPipes, farm.acres);
    payment := PaymentRow(key.week, farm.village, key.farmId, farm.farmerName, farm.group,
      farm.acres, totalPipes, compliantPipes, payout.rate, payout.eligibleAcres, payout.payment);
    assert payment == MakePayment(key, farm, totalPipes, compliantPipes);
    report := MonitoringRow(WeekDisplay(key.week), farm.village, key.farmId,
      farm.farmerName, farm.group, farm.acres, summaries, comments);
    MakePaymentInvariant(key, farm, totalPipes, compliantPipes);
  }

  /** Every key of `keys` has rows in `merged`. */
  ghost predicate AllHaveRows(merged: seq<MergedRow>, keys: seq<FarmWeek>) {
    forall i :: 0 <= i < |keys| ==> RowsOf(merged, keys[i]) != []
  }

  /** The payment rows of the groups `keys`, one per key, in order. */
  function PaymentTable(merged: seq<MergedRow>, keys: seq<FarmWeek>): seq<PaymentRow>
    requires AllHaveRows(merged, keys)
  {
    seq(|keys|, i requires 0 <= i < |keys| => PaymentOf(keys[i], RowsOf(merged, keys[i])))
  }

  /** The monitoring rows of the groups `keys`, one per key, in order. */
  function MonitoringTable(merged: seq<MergedRow>, keys: seq<FarmWeek>): seq<MonitoringRow>
    requires AllHaveRows(merged, keys)
  {
    seq(|keys|, i requires 0 <= i < |keys| => MonitoringOf(keys[i], RowsOf(merged, keys[i])))
  }

  /** Appending the row of key `g` extends a prefix of the payment table by one. */
  lemma PaymentTableStep(merged: seq<MergedRow>, keys: seq<FarmWeek>, g: nat,
                         payments: seq<PaymentRow>, payment: PaymentRow)
    requires AllHaveRows(merged, keys) && g < |keys| && |payments| == g
    requires forall i :: 0 <= i < g ==> payments[i] == PaymentTable(merged, keys)[i]
    requires payment == PaymentOf(keys[g], RowsOf(merged, keys[g]))
    ensures forall i :: 0 <= i < g + 1 ==> (payments + [payment])[i] == PaymentTable(merged, keys)[i]
  {
  }

  /** Appending the row of key `g` extends a prefix of the monitoring table by one. */
  lemma MonitoringTableStep(merged: seq<MergedRow>, keys: seq<FarmWeek>, g: nat,
                            monitoring: seq<MonitoringRow>, report: MonitoringRow)
    requires AllHaveRows(merged, keys) && g < |keys| && |monitoring| == g
    requires forall i :: 0 <= i < g ==> monitoring[i] == MonitoringTable(merged, keys)[i]
    requires report == MonitoringOf(keys[g], RowsOf(merged, keys[g]))
    ensures forall i :: 0 <= i < g + 1 ==> (monitoring + [report])[i] == MonitoringTable(merged, keys)[i]
  {
  }

  /**
   * The group loop of `analyze_compliance` (App.py:261-363) over the
   * group keys in order: one payment row and one monitoring row per key.
   */
  method AnalyzeGroups(merged: seq<MergedRow>, keys: seq<FarmWeek>)
    returns (payments: seq<PaymentRow>, monitoring: seq<MonitoringRow>)
    requires AllHaveRows(merged, keys)
    ensures payments == PaymentTable(merged, keys) && monitoring == MonitoringTable(merged, keys)
  {
    payments, monitoring := [], [];
    var g := 0;
    while g < |keys|
      invariant 0 <= g <= |keys|
      invariant |payments| == g && |monitoring| == g
      invariant forall i :: 0 <= i < g ==> payments[i] == PaymentTable(merged, keys)[i]
      invariant forall i :: 0 <= i < g ==> monitoring[i] == MonitoringTable(merged, keys)[i]
    {
      var payment, report := AnalyzeFarmWeek(keys[g], RowsOf(merged, keys[g]));
      PaymentTableStep(merged, keys, g, payments, payment);
      MonitoringTableStep(merged, keys, g, monitoring, report);
      payments := payments + [payment];
      monitoring := monitoring + [report];
      g := g + 1;
    }
  }

  /**
   * `analyze_compliance`: the readings that have a week, joined to the
   * master table, then analysed group by group.
   */
  method AnalyzeCompliance(master: seq<MasterRow>, water: seq<WaterRow>)
    returns (payments: seq<PaymentRow>, monitoring: seq<MonitoringRow>)
    ensures var merged := Merged(master, water);
      var keys := FarmWeeks(merged);
      && |payments| == |keys| && |monitoring| == |keys|
      && forall i :: 0 <= i < |keys| ==>
           RowsOf(merged, keys[i]) != []
           && payments[i] == PaymentOf(keys[i], RowsOf(merged, keys[i]))
           && monitoring[i] == MonitoringOf(keys[i], RowsOf(merged, keys[i]))
    ensures forall i :: 0 <= i < |payments| ==> PaymentInvariant(payments[i])
  {
    var merged := Merged(master, water);
    var keys := FarmWeeks(merged);
    forall i | 0 <= i < |keys| ensures RowsOf(merged, keys[i]) != [] {
      KeyHasRows(merged, keys[i]);
    }
    payments, monitoring := AnalyzeGroups(merged, keys);
    forall i | 0 <= i < |keys| ensures PaymentInvariant(payments[i]) {
      PaymentOfInvariant(keys[i], RowsOf(merged, keys[i]));
    }
  }
}
