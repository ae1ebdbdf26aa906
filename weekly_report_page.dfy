/** The weekly report page: the week's means, the number of days each
    goal was met, the chart points and the badge of each day, over the
    records of the weekly report. */
module WeeklyReportPage {
  import opened Js
  import opened Queries
  import opened CalorieEngine
  import U = UserRepository
  import Server
  import R = MealRepository
  import W = WaterRepository

  /** Every record's "both" flag is the conjunction of the other two, as
      the server computes it. */
  ghost predicate Consistent(ds: seq<DayReport>)
  {
    forall k :: 0 <= k < |ds| ==> (ds[k].bateuAmbas <==> ds[k].bateuCalorias && ds[k].bateuAgua)
  }

  /** The server's weekly report is consistent. */
  lemma ServerReportsConsistent(mt: R.MealTable, wt: seq<W.AguaRow>, deviceId: string, dias: seq<int>, metas: U.Metas)
    ensures Consistent(Server.Reports(mt, wt, deviceId, dias, metas))
  {
    var ds := Server.Reports(mt, wt, deviceId, dias, metas);
    Server.ReportsLength(mt, wt, deviceId, dias, metas);
    forall k | 0 <= k < |ds|
      ensures ds[k].bateuAmbas <==> ds[k].bateuCalorias && ds[k].bateuAgua
    {
      Server.ReportsAt(mt, wt, deviceId, dias, metas, k);
    }
  }

  // ------------------------------------------------------------ means

  function SumCalorias(ds: seq<DayReport>): real
  {
    if ds == [] then 0.0 else ds[0].totalCalorias + SumCalorias(ds[1..])
  }

  function SumAgua(ds: seq<DayReport>): int
  {
    if ds == [] then 0 else ds[0].totalAgua + SumAgua(ds[1..])
  }

  /** `mediaCalorias`: the mean of the days' totals, 0 for no days. */
  function MediaCalorias(ds: seq<DayReport>): real
  {
    if |ds| > 0 then SumCalorias(ds) / |ds| as real else 0.0
  }

  /** `mediaAgua`, the same for water. */
  function MediaAgua(ds: seq<DayReport>): real
  {
    if |ds| > 0 then SumAgua(ds) as real / |ds| as real else 0.0
  }

  ghost predicate CaloriesBetween(ds: seq<DayReport>, lo: real, hi: real)
  {
    forall k :: 0 <= k < |ds| ==> lo <= ds[k].totalCalorias <= hi
  }

  lemma {:induction false} SumCaloriasBounds(ds: seq<DayReport>, lo: real, hi: real)
    requires CaloriesBetween(ds, lo, hi)
    ensures |ds| as real * lo <= SumCalorias(ds) <= |ds| as real * hi
  {
    if ds != [] {
      assert CaloriesBetween(ds[1..], lo, hi);
      SumCaloriasBounds(ds[1..], lo, hi);
      assert |ds| as real * lo == (|ds| - 1) as real * lo + lo;
      assert |ds| as real * hi == (|ds| - 1) as real * hi + hi;
    }
  }

  /** The mean lies between the smallest and the largest day; a week of
      days that all met the calorie band at one goal has its mean in
      that band too. */
  lemma {:induction false} MediaWithinBounds(ds: seq<DayReport>, lo: real, hi: real)
    requires |ds| > 0 && CaloriesBetween(ds, lo, hi)
    ensures lo <= MediaCalorias(ds) <= hi
  {
    SumCaloriasBounds(ds, lo, hi);
    MeanBounds(SumCalorias(ds), |ds|, lo, hi);
  }

  lemma {:induction false} SumAguaNonNegative(ds: seq<DayReport>)
    requires forall k :: 0 <= k < |ds| ==> ds[k].totalAgua >= 0
    ensures SumAgua(ds) >= 0
  {
    if ds != [] {
      SumAguaNonNegative(ds[1..]);
    }
  }

  /** With no negative water records the mean water is not negative. */
  lemma MediaAguaNonNegative(ds: seq<DayReport>)
    requires forall k :: 0 <= k < |ds| ==> ds[k].totalAgua >= 0
    ensures MediaAgua(ds) >= 0.0
  {
    SumAguaNonNegative(ds);
    if |ds| > 0 {
      DivMonotone(0.0, SumAgua(ds) as real, |ds| as real);
    }
  }

  // ------------------------------------------------------------ counts

  predicate BateuCalorias(d: DayReport) { d.bateuCalorias }
  predicate BateuAgua(d: DayReport) { d.bateuAgua }
  predicate BateuAmbas(d: DayReport) { d.bateuAmbas }

  /** `dadosSemana.filter(d => d.bateuX).length`. */
  function DiasBateu(ds: seq<DayReport>, p: DayReport -> bool): (r: nat)
    ensures r <= |ds|
  {
    |Filter(ds, p)|
  }

  lemma FilterHead(ds: seq<DayReport>, p: DayReport -> bool)
    requires ds != []
    ensures DiasBateu(ds, p) == (if p(ds[0]) then 1 else 0) + DiasBateu(ds[1..], p)
  {
  }

  /** On a consistent report the days that met both goals are among the
      days that met each, and no day is counted in neither of the two
      more than once: calories + water - both never exceeds the days. */
  lemma {:induction false} MetCountsConsistent(ds: seq<DayReport>)
    requires Consistent(ds)
    ensures DiasBateu(ds, BateuAmbas) <= DiasBateu(ds, BateuCalorias)
    ensures DiasBateu(ds, BateuAmbas) <= DiasBateu(ds, BateuAgua)
    ensures DiasBateu(ds, BateuCalorias) + DiasBateu(ds, BateuAgua) - DiasBateu(ds, BateuAmbas) <= |ds|
  {
    if ds != [] {
      assert Consistent(ds[1..]);
      MetCountsConsistent(ds[1..]);
      FilterHead(ds, BateuAmbas);
      FilterHead(ds, BateuCalorias);
      FilterHead(ds, BateuAgua);
    }
  }

  // ------------------------------------------------------------ chart

  /** One point of the two charts; water in litres. */
  datatype ChartPoint = ChartPoint(dia: int, calorias: real, metaCalorias: int, agua: real, metaAgua: real)

  function Point(d: DayReport, metas: U.Metas): ChartPoint
  {
    ChartPoint(d.data, d.totalCalorias, metas.calorias, d.totalAgua as real / 1000.0, metas.agua as real / 1000.0)
  }

  /** `chartData`: one point per record, in the records' order. */
  function ChartData(ds: seq<DayReport>, metas: U.Metas): (r: seq<ChartPoint>)
    ensures |r| == |ds|
    ensures forall k :: 0 <= k < |ds| ==> r[k] == Point(ds[k], metas)
  {
    if ds == [] then [] else [Point(ds[0], metas)] + ChartData(ds[1..], metas)
  }

  /** The chart follows the days: strictly increasing days give strictly
      increasing points. */
  lemma ChartKeepsDayOrder(ds: seq<DayReport>, metas: U.Metas)
    requires forall i, j :: 0 <= i < j < |ds| ==> ds[i].data < ds[j].data
    ensures forall i, j :: 0 <= i < j < |ds| ==> ChartData(ds, metas)[i].dia < ChartData(ds, metas)[j].dia
  {
  }

  // ------------------------------------------------------------ badges

  datatype Badge = Completo | Calorias | Agua | Incompleto  // ✅ 🔥 💧 ⚠️

  /** The badges shown next to a day. */
  function Badges(d: DayReport): (r: seq<Badge>)
    ensures Completo in r <==> d.bateuAmbas
    ensures Incompleto in r <==> !d.bateuAmbas && !d.bateuCalorias && !d.bateuAgua
    ensures Calorias in r <==> !d.bateuAmbas && d.bateuCalorias
    ensures Agua in r <==> !d.bateuAmbas && d.bateuAgua
  {
    if d.bateuAmbas then [Completo]
    else
      (if d.bateuCalorias then [Calorias] else [])
      + (if d.bateuAgua then [Agua] else [])
      + (if !d.bateuCalorias && !d.bateuAgua then [Incompleto] else [])
  }

  /** On a record the server computed, exactly one badge shows. */
  lemma OneBadge(d: DayReport)
    requires d.bateuAmbas <==> d.bateuCalorias && d.bateuAgua
    ensures |Badges(d)| == 1
  {
  }

  // ------------------------------------------------------------ goals

  /** The goals the page draws: the fetched ones, or 1600 / 4000 when
      fetching them failed. */
  function MetasShown(fetched: Result<U.Metas>): (r: U.Metas)
    ensures fetched.Ok? ==> r == fetched.value
    ensures fetched.Err? ==> r == U.Metas(1600, 4000)
  {
    match fetched
    case Ok(m) => m
    case Err(_) => U.Metas(1600, 4000)
  }

  /** When the goals come from `GET /api/metas`, the calorie goal line is
      the goal the server judged each day against, so a day's 🔥 or ✅
      badge means its point lies in the band under that line. When the
      fetch fails the line shows 1600, which is the server's goal only
      for a device with the default calorie goal. */
  lemma GoalLineMatchesFlags(d: DayReport, stored: U.Metas, fetched: Result<U.Metas>)
    requires fetched.Ok? ==> fetched.value == U.Metas(CalorieGoal(stored), WaterGoal(stored))
    requires d.bateuCalorias <==> InCalorieBand(d.totalCalorias, CalorieGoal(stored))
    requires d.bateuAgua <==> d.totalAgua >= WaterGoal(stored)
    ensures fetched.Ok? ==> (d.bateuCalorias <==> InCalorieBand(d.totalCalorias, MetasShown(fetched).calorias))
    ensures fetched.Ok? ==> (d.bateuAgua <==> d.totalAgua >= MetasShown(fetched).agua)
    ensures fetched.Err? && OrInt(stored.calorias, 1600) == 1600 ==>
      (d.bateuCalorias <==> InCalorieBand(d.totalCalorias, MetasShown(fetched).calorias))
  {
  }
}
