/** The history calendar: the per-day cell data of a month, read from the
    dictionaries of loaded meals and water keyed by date, and the details
    panel of the selected day. */
module CalendarPage {
  import opened Js
  import opened Meals
  import opened CalorieEngine
  import U = UserRepository
  import R = MealRepository
  import W = WaterRepository
  import Server

  /** What a day's cell shows. */
  datatype DayData = DayData(refeicoes: nat, calorias: real, agua: int)

  /** `getDayData`: a date missing from a dictionary reads as no meals
      and `{ total: 0 }`. */
  function GetDayData(refeicoesPorData: map<int, seq<Meal>>, aguaPorData: map<int, W.DayWater>, day: int): (r: DayData)
    ensures day !in refeicoesPorData ==> r.refeicoes == 0 && r.calorias == 0.0
    ensures day in refeicoesPorData ==> r.refeicoes == |refeicoesPorData[day]| && r.calorias == DayCalories(refeicoesPorData[day])
    ensures r.agua == (if day in aguaPorData then aguaPorData[day].total else 0)
  {
    var refeicoes := if day in refeicoesPorData then refeicoesPorData[day] else [];
    var agua := if day in aguaPorData then aguaPorData[day] else W.DayWater(0, []);
    DayData(|refeicoes|, DayCalories(refeicoes), agua.total)
  }

  /** `loadHistorico` for one date: a failed meal fetch stores `[]`, a
      failed water fetch `{ total: 0, registros: [] }`. */
  function Loaded(refeicoesPorData: map<int, seq<Meal>>, aguaPorData: map<int, W.DayWater>, day: int,
                  refeicoes: Result<seq<Meal>>, agua: Result<W.DayWater>): (r: (map<int, seq<Meal>>, map<int, W.DayWater>))
    ensures day in r.0 && day in r.1
    ensures refeicoes.Err? ==> GetDayData(r.0, r.1, day).refeicoes == 0 && GetDayData(r.0, r.1, day).calorias == 0.0
    ensures agua.Err? ==> GetDayData(r.0, r.1, day).agua == 0
    ensures refeicoes.Ok? ==> GetDayData(r.0, r.1, day).refeicoes == |refeicoes.value|
    ensures agua.Ok? ==> GetDayData(r.0, r.1, day).agua == agua.value.total
    ensures forall d :: d != day ==> GetDayData(r.0, r.1, d) == GetDayData(refeicoesPorData, aguaPorData, d)
  {
    (refeicoesPorData[day := if refeicoes.Ok? then refeicoes.value else []],
     aguaPorData[day := if agua.Ok? then agua.value else W.DayWater(0, [])])
  }

  /** A day loaded from the server shows the weekly report's numbers for
      that day: the same meal count, calorie total and water total. */
  lemma CellMatchesReport(mt: R.MealTable, wt: seq<W.AguaRow>, deviceId: string, day: int, metas: U.Metas,
                          refeicoesPorData: map<int, seq<Meal>>, aguaPorData: map<int, W.DayWater>)
    requires day in refeicoesPorData && refeicoesPorData[day] == Server.FormatMeals(R.ByDate(mt, deviceId, day))
    requires day in aguaPorData && aguaPorData[day] == W.ByDate(wt, deviceId, day)
    ensures var cell := GetDayData(refeicoesPorData, aguaPorData, day);
      var report := Server.ReportDay(mt, wt, deviceId, day, metas);
      cell.refeicoes == report.totalRefeicoes && cell.calorias == report.totalCalorias && cell.agua == report.totalAgua
  {
    Server.PagesAgreeWithReport(mt, deviceId, day, W.ByDate(wt, deviceId, day).total, metas);
  }

  /** The markers of a cell. */
  datatype Indicators = Indicators(hasData: bool, calorias: bool, agua: bool)

  /** The count, calorie and water markers are all drawn inside the
      `refeicoes > 0` block. */
  function CellIndicators(d: DayData): (r: Indicators)
    ensures r.hasData <==> d.refeicoes > 0
    ensures r.calorias <==> d.refeicoes > 0 && d.calorias > 0.0
    ensures r.agua <==> d.refeicoes > 0 && d.agua > 0
  {
    Indicators(d.refeicoes > 0, d.refeicoes > 0 && d.calorias > 0.0, d.refeicoes > 0 && d.agua > 0)
  }

  /** A day with water but no meals has no marker at all in its cell. */
  lemma WaterOnlyDayUnmarked(d: DayData)
    requires d.refeicoes == 0 && d.agua > 0
    ensures CellIndicators(d) == Indicators(false, false, false)
  {
  }

  // ------------------------------------------------------------ details

  /** One meal line of the details panel. */
  datatype MealLine = MealLine(tipo: string, calorias: Option<real>, notas: string)

  /** The details panel: the empty message, or the meal lines and the
      water section (shown when the total is above 0). */
  datatype Details =
    | NenhumRegistro
    | Registros(refeicoes: seq<MealLine>, agua: Option<W.DayWater>)

  function Line(m: Meal): MealLine
  {
    MealLine(m.tipo, RawMealCalories(m), m.notas)
  }

  function Lines(ms: seq<Meal>): (r: seq<MealLine>)
    ensures |r| == |ms|
    ensures forall k :: 0 <= k < |ms| ==> r[k] == Line(ms[k])
  {
    if ms == [] then [] else [Line(ms[0])] + Lines(ms[1..])
  }

  /** The details of the selected date. */
  function DayDetails(refeicoesPorData: map<int, seq<Meal>>, aguaPorData: map<int, W.DayWater>, day: int): (r: Details)
    ensures var cell := GetDayData(refeicoesPorData, aguaPorData, day);
      r == NenhumRegistro <==> cell.refeicoes == 0 && cell.agua == 0
    ensures r.Registros? ==> r.refeicoes == Lines(if day in refeicoesPorData then refeicoesPorData[day] else [])
    ensures r.Registros? ==> (r.agua.Some? <==> GetDayData(refeicoesPorData, aguaPorData, day).agua > 0)
  {
    var refeicoes := if day in refeicoesPorData then refeicoesPorData[day] else [];
    var agua := if day in aguaPorData then aguaPorData[day] else W.DayWater(0, []);
    if |refeicoes| == 0 && agua.total == 0 then NenhumRegistro
    else Registros(Lines(refeicoes), if agua.total > 0 then Some(agua) else None)
  }

  /** The sum of the lines' calories, `None` as soon as one is `NaN`. */
  function LinesTotal(lines: seq<MealLine>): Option<real>
  {
    if lines == [] then Some(0.0)
    else match (lines[0].calorias, LinesTotal(lines[1..]))
      case (Some(x), Some(rest)) => Some(x + rest)
      case _ => None
  }

  /** When every item has a calorie value, the panel's lines add up to
      the number in the day's cell. */
  lemma {:induction false} LinesAddUpToCell(ms: seq<Meal>)
    requires forall k, j :: 0 <= k < |ms| && 0 <= j < |ms[k].itens| ==> ms[k].itens[j].calorias.Value?
    ensures LinesTotal(Lines(ms)) == Some(DayCalories(ms))
  {
    if ms != [] {
      RawMealCaloriesAgree(ms[0]);
      assert Lines(ms)[1..] == Lines(ms[1..]);
      LinesAddUpToCell(ms[1..]);
    }
  }

  /** Every item the server lists has a calorie value (the store defaults
      a missing one to 0), so for loaded days the panel never shows
      `NaN` and agrees with the cell. */
  lemma ServerDayLinesAddUp(mt: R.MealTable, deviceId: string, day: int)
    ensures var ms := Server.FormatMeals(R.ByDate(mt, deviceId, day));
      LinesTotal(Lines(ms)) == Some(DayCalories(ms))
  {
    var ms := Server.FormatMeals(R.ByDate(mt, deviceId, day));
    forall k, j | 0 <= k < |ms| && 0 <= j < |ms[k].itens|
      ensures ms[k].itens[j].calorias.Value?
    {
    }
    LinesAddUpToCell(ms);
  }
}
