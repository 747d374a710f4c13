/**
 * Cleaning of the two uploaded tables: `clean_master_data` (App.py:109-184)
 * and `clean_water_data` (App.py:191-226). Each resolves its columns with
 * `find_column`, then maps every row to a canonical record; the water table
 * also drops rows without a date or a water level.
 */
module Cleaning {
  import opened Wrappers
  import opened Columns
  import opened Flags

  /**
   * One cell of an uploaded table: missing (NaN), or present with the
   * three readings the source takes of it: its text under `astype(str)`,
   * its number under `pd.to_numeric(errors='coerce')` and its day number
   * under `pd.to_datetime(errors='coerce')` (None where pandas yields NaN/NaT).
   */
  datatype Cell = Missing | Present(text: string, number: Option<real>, day: Option<int>)

  /** A table: its header row and its data rows. */
  datatype Table = Table(columns: seq<string>, rows: seq<seq<Cell>>)

  /** The `KeyError` raised when a default column name is not a header. */
  datatype CleanError = MissingColumn(name: string)

  /** The cell in column `i`; a short row reads as missing there. */
  function CellAt(row: seq<Cell>, i: nat): Cell {
    if i < |row| then row[i] else Missing
  }

  /** `astype(str)`: a missing value renders as "nan", never as NaN. */
  function AsText(c: Cell): string {
    match c
    case Missing => "nan"
    case Present(text, _, _) => text
  }

  function AsNumber(c: Cell): Option<real> {
    match c
    case Missing => None
    case Present(_, number, _) => number
  }

  function AsDate(c: Cell): Option<int> {
    match c
    case Missing => None
    case Present(_, _, day) => day
  }

  /** The position of the first header called `name`. */
  function IndexOf(columns: seq<string>, name: string): (i: nat)
    requires name in columns
    ensures i < |columns| && columns[i] == name
    ensures forall j :: 0 <= j < i ==> columns[j] != name
  {
    if columns[0] == name then 0 else 1 + IndexOf(columns[1..], name)
  }

  /**
   * `df[find_column(df, keywords, default)]`: the column found, or the
   * default; a default that is not a header raises.
   */
  function ResolveColumn(columns: seq<string>, keywords: seq<string>, default: string): (r: Result<nat, CleanError>)
    ensures var found := FindColumn(columns, keywords, Some(default));
      && found.Some?
      && (r.Success? <==> found.value in columns)
      && (r.Success? ==> r.value < |columns| && columns[r.value] == found.value)
      && (r.Failure? ==> r.error == MissingColumn(default) && found.value == default)
  {
    var name := FindColumn(columns, keywords, Some(default)).value;
    if name in columns then Success(IndexOf(columns, name)) else Failure(MissingColumn(name))
  }

  /** `find_column(df, keywords)` with no default: a column, or none. */
  function ResolveOptionalColumn(columns: seq<string>, keywords: seq<string>): (r: Option<nat>)
    ensures r.None? <==> FindColumn(columns, keywords, None).None?
    ensures r.Some? ==> r.value < |columns| && FindColumn(columns, keywords, None) == Some(columns[r.value])
  {
    match FindColumn(columns, keywords, None)
    case None => None
    case Some(name) => Some(IndexOf(columns, name))
  }

  // ---- master table ----

  const FarmIdKeywords: seq<string> := ["farm id", "farm_id", "farmid"]
  const FarmerNameKeywords: seq<string> := ["farmer name", "farmer_name"]
  const VillageKeywords: seq<string> := ["village"]
  const AcresKeywords: seq<string> := ["acres", "acreage", "incentive acres"]
  const GroupAKeywords: seq<string> := ["group a - treatment", "awd study - group a"]
  const GroupBKeywords: seq<string> := ["group b - training", "awd study - group b"]
  const GroupCKeywords: seq<string> := ["group c - control", "awd study - group c"]

  /** Where the master fields are; a group column may be absent. */
  datatype MasterColumns = MasterColumns(
    farmId: nat, farmerName: nat, village: nat, acres: nat,
    groupA: Option<nat>, groupB: Option<nat>, groupC: Option<nat>)

  /** Column resolution of `clean_master_data`; the first absent default, in field order, is the error. */
  function ResolveMasterColumns(columns: seq<string>): (r: Result<MasterColumns, CleanError>)
    ensures r.Success? <==>
      && ResolveColumn(columns, FarmIdKeywords, "Farm_ID").Success?
      && ResolveColumn(columns, FarmerNameKeywords, "Farmer_Name").Success?
      && ResolveColumn(columns, VillageKeywords, "Village").Success?
      && ResolveColumn(columns, AcresKeywords, "Acres").Success?
    ensures r.Failure? ==> r.error.name in {"Farm_ID", "Farmer_Name", "Village", "Acres"} && r.error.name !in columns
    ensures r.Success? ==>
      && r.value.farmId == ResolveColumn(columns, FarmIdKeywords, "Farm_ID").value
      && r.value.farmerName == ResolveColumn(columns, FarmerNameKeywords, "Farmer_Name").value
      && r.value.village == ResolveColumn(columns, VillageKeywords, "Village").value
      && r.value.acres == ResolveColumn(columns, AcresKeywords, "Acres").value
      && r.value.groupA == ResolveOptionalColumn(columns, GroupAKeywords)
      && r.value.groupB == ResolveOptionalColumn(columns, GroupBKeywords)
      && r.value.groupC == ResolveOptionalColumn(columns, GroupCKeywords)
  {
    match ResolveColumn(columns, FarmIdKeywords, "Farm_ID")
    case Failure(e) => Failure(e)
    case Success(farmId) =>
      match ResolveColumn(columns, FarmerNameKeywords, "Farmer_Name")
      case Failure(e) => Failure(e)
      case Success(farmerName) =>
        match ResolveColumn(columns, VillageKeywords, "Village")
        case Failure(e) => Failure(e)
        case Success(village) =>
          match ResolveColumn(columns, AcresKeywords, "Acres")
          case Failure(e) => Failure(e)
          case Success(acres) =>
            Success(MasterColumns(farmId, farmerName, village, acres,
              ResolveOptionalColumn(columns, GroupAKeywords),
              ResolveOptionalColumn(columns, GroupBKeywords),
              ResolveOptionalColumn(columns, GroupCKeywords)))
  }

  /** A cleaned farm: identity, incentive acres and group. */
  datatype MasterRow = MasterRow(farmId: string, farmerName: string, village: string, acres: real, group: Group)

  /** `pd.to_numeric(errors='coerce').fillna(0).clip(lower=0)` */
  function CoerceAcres(c: Cell): (acres: real)
    ensures acres >= 0.0
    ensures AsNumber(c).None? ==> acres == 0.0
    ensures AsNumber(c).Some? && AsNumber(c).value >= 0.0 ==> acres == AsNumber(c).value
    ensures AsNumber(c).Some? && AsNumber(c).value < 0.0 ==> acres == 0.0
  {
    match AsNumber(c)
    case None => 0.0
    case Some(x) => if x < 0.0 then 0.0 else x
  }

  /** A group flag: an absent column reads 0; a missing cell is filled with 0 first. */
  function FlagValue(row: seq<Cell>, col: Option<nat>): (b: int)
    ensures b == 0 || b == 1
    ensures col.None? ==> b == 0
    ensures col.Some? && CellAt(row, col.value).Missing? ==> b == 0
    ensures col.Some? && CellAt(row, col.value).Present? ==> b == ConvertToBinary(CellAt(row, col.value).text)
  {
    match col
    case None => 0
    case Some(i) =>
      var c := CellAt(row, i);
      ConvertToBinary(if c.Missing? then "0" else c.text)
  }

  function CleanMasterRow(row: seq<Cell>, mc: MasterColumns): MasterRow {
    MasterRow(
      AsText(CellAt(row, mc.farmId)),
      AsText(CellAt(row, mc.farmerName)),
      AsText(CellAt(row, mc.village)),
      CoerceAcres(CellAt(row, mc.acres)),
      AssignGroup(FlagValue(row, mc.groupA), FlagValue(row, mc.groupB), FlagValue(row, mc.groupC)))
  }

  /**
   * `clean_master_data`: one cleaned farm per input row, in order (the
   * final `dropna` on Farm_ID drops nothing, since `astype(str)` never
   * yields NaN), every one with non-negative acres.
   */
  function CleanMaster(t: Table): (r: Result<seq<MasterRow>, CleanError>)
    ensures r.Success? <==> ResolveMasterColumns(t.columns).Success?
    ensures r.Success? ==> |r.value| == |t.rows|
    ensures r.Success? ==> forall i :: 0 <= i < |r.value| ==> r.value[i].acres >= 0.0
  {
    match ResolveMasterColumns(t.columns)
    case Failure(e) => Failure(e)
    case Success(mc) => Success(CleanMasterRows(t.rows, mc))
  }

  // Only splits the proof of CleanMaster: this ensures promises nothing beyond the body.
  function CleanMasterRows(rows: seq<seq<Cell>>, mc: MasterColumns): (out: seq<MasterRow>)
    ensures |out| == |rows|
    ensures forall i :: 0 <= i < |out| ==> out[i] == CleanMasterRow(rows[i], mc)
  {
    seq(|rows|, i requires 0 <= i < |rows| => CleanMasterRow(rows[i], mc))
  }

  /**
   * Each cleaned farm takes its identity from the resolved columns, its
   * acres coerced to a non-negative number, and its group from the flags
   * by the A, B, C priority; a group column that was not found counts as
   * flag 0.
   */
  lemma CleanMasterRowMeaning(t: Table, i: nat)
    requires CleanMaster(t).Success? && i < |t.rows|
    ensures var mc := ResolveMasterColumns(t.columns).value;
      var m := CleanMaster(t).value[i];
      var row := t.rows[i];
      && m.farmId == AsText(CellAt(row, mc.farmId))
      && m.farmerName == AsText(CellAt(row, mc.farmerName))
      && m.village == AsText(CellAt(row, mc.village))
      && m.acres == CoerceAcres(CellAt(row, mc.acres))
      && (m.group == A <==> FlagValue(row, mc.groupA) == 1)
      && (m.group == B <==> FlagValue(row, mc.groupA) == 0 && FlagValue(row, mc.groupB) == 1)
      && (m.group == C <==> FlagValue(row, mc.groupA) == 0 && FlagValue(row, mc.groupB) == 0
                            && FlagValue(row, mc.groupC) == 1)
      && (m.group == Unknown <==> FlagValue(row, mc.groupA) == 0 && FlagValue(row, mc.groupB) == 0
                                  && FlagValue(row, mc.groupC) == 0)
  {
    var mc := ResolveMasterColumns(t.columns).value;
    assert CleanMaster(t).value == CleanMasterRows(t.rows, mc);
  }

  // ---- water table ----

  const DateKeywords: seq<string> := ["date"]
  const PipeIdKeywords: seq<string> := ["pipe id", "pipe_id", "pipe code"]
  const WaterLevelKeywords: seq<string> := ["water level", "water_level", "depth"]

  datatype WaterColumns = WaterColumns(date: nat, farmId: nat, pipeId: nat, level: nat)

  /** Column resolution of `clean_water_data`; the first absent default, in field order, is the error. */
  function ResolveWaterColumns(columns: seq<string>): (r: Result<WaterColumns, CleanError>)
    ensures r.Success? <==>
      && ResolveColumn(columns, DateKeywords, "Date").Success?
      && ResolveColumn(columns, FarmIdKeywords, "Farm_ID").Success?
      && ResolveColumn(columns, PipeIdKeywords, "Pipe_ID").Success?
      && ResolveColumn(columns, WaterLevelKeywords, "Water_Level_mm").Success?
    ensures r.Failure? ==> r.error.name in {"Date", "Farm_ID", "Pipe_ID", "Water_Level_mm"} && r.error.name !in columns
    ensures r.Success? ==>
      && r.value.date == ResolveColumn(columns, DateKeywords, "Date").value
      && r.value.farmId == ResolveColumn(columns, FarmIdKeywords, "Farm_ID").value
      && r.value.pipeId == ResolveColumn(columns, PipeIdKeywords, "Pipe_ID").value
      && r.value.level == ResolveColumn(columns, WaterLevelKeywords, "Water_Level_mm").value
  {
    match ResolveColumn(columns, DateKeywords, "Date")
    case Failure(e) => Failure(e)
    case Success(date) =>
      match ResolveColumn(columns, FarmIdKeywords, "Farm_ID")
      case Failure(e) => Failure(e)
      case Success(farmId) =>
        match ResolveColumn(columns, PipeIdKeywords, "Pipe_ID")
        case Failure(e) => Failure(e)
        case Success(pipeId) =>
          match ResolveColumn(columns, WaterLevelKeywords, "Water_Level_mm")
          case Failure(e) => Failure(e)
          case Success(level) => Success(WaterColumns(date, farmId, pipeId, level))
  }

  /** A cleaned measurement: day number, farm, pipe and water level in mm. */
  datatype WaterRow = WaterRow(date: int, farmId: string, pipeId: string, level: real)

  /** Row `row` of the water table reads as measurement `w`. */
  predicate Yields(row: seq<Cell>, wc: WaterColumns, w: WaterRow) {
    && AsDate(CellAt(row, wc.date)) == Some(w.date)
    && AsNumber(CellAt(row, wc.level)) == Some(w.level)
    && AsText(CellAt(row, wc.farmId)) == w.farmId
    && AsText(CellAt(row, wc.pipeId)) == w.pipeId
  }

  /** One row, or None when its date or water level is missing or unparsable. */
  function CleanWaterRow(row: seq<Cell>, wc: WaterColumns): (r: Option<WaterRow>)
    ensures forall w :: r == Some(w) <==> Yields(row, wc, w)
  {
    match (AsDate(CellAt(row, wc.date)), AsNumber(CellAt(row, wc.level)))
    case (Some(d), Some(level)) =>
      Some(WaterRow(d, AsText(CellAt(row, wc.farmId)), AsText(CellAt(row, wc.pipeId)), level))
    case _ => None
  }

  /** What each row of the water table reads as, row by row. */
  function Outcomes(rows: seq<seq<Cell>>, wc: WaterColumns): (os: seq<Option<WaterRow>>)
    ensures |os| == |rows|
    ensures forall i, w :: 0 <= i < |rows| ==> (os[i] == Some(w) <==> Yields(rows[i], wc, w))
  {
    seq(|rows|, i requires 0 <= i < |rows| => CleanWaterRow(rows[i], wc))
  }

  /** The rows kept by the `dropna`, in their original order. */
  function KeptRows(rows: seq<seq<Cell>>, wc: WaterColumns): (out: seq<WaterRow>)
    ensures |out| <= |rows|
    ensures forall w :: w in out <==> exists i :: 0 <= i < |rows| && Yields(rows[i], wc, w)
  {
    if rows == [] then []
    else
      var rest := KeptRows(rows[1..], wc);
      assert forall i :: 1 <= i < |rows| ==> rows[i] == rows[1..][i - 1];
      match CleanWaterRow(rows[0], wc)
      case Some(w) => [w] + rest
      case None => rest
  }

  /** The `dropna` keeps each measurement as many times as there are rows that yield it. */
  lemma {:induction false} KeptRowsCount(rows: seq<seq<Cell>>, wc: WaterColumns)
    ensures forall w :: multiset(KeptRows(rows, wc))[w] == multiset(Outcomes(rows, wc))[Some(w)]
  {
    if rows != [] {
      KeptRowsCount(rows[1..], wc);
      OutcomesCons(rows, wc);
      var o := CleanWaterRow(rows[0], wc);
      assert KeptRows(rows, wc) == (if o.Some? then [o.value] else []) + KeptRows(rows[1..], wc);
    }
  }

  lemma OutcomesCons(rows: seq<seq<Cell>>, wc: WaterColumns)
    requires rows != []
    ensures Outcomes(rows, wc) == [CleanWaterRow(rows[0], wc)] + Outcomes(rows[1..], wc)
  {
  }

  /**
   * `clean_water_data`: every row with a parsable date and water level
   * becomes a measurement with that row's farm and pipe, and no other row
   * does; a measurement is kept once per row that yields it.
   */
  function CleanWater(t: Table): (r: Result<seq<WaterRow>, CleanError>)
    ensures r.Success? <==> ResolveWaterColumns(t.columns).Success?
    ensures r.Success? ==> |r.value| <= |t.rows|
    ensures r.Success? ==> forall w :: w in r.value <==>
      exists i :: 0 <= i < |t.rows| && Yields(t.rows[i], ResolveWaterColumns(t.columns).value, w)
    ensures r.Success? ==> forall w ::
      multiset(r.value)[w] == multiset(Outcomes(t.rows, ResolveWaterColumns(t.columns).value))[Some(w)]
  {
    match ResolveWaterColumns(t.columns)
    case Failure(e) => Failure(e)
    case Success(wc) =>
      KeptRowsCount(t.rows, wc);
      Success(KeptRows(t.rows, wc))
  }
}
