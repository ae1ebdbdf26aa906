/** The achievements page: which of the eight achievements are unlocked,
    from today's meals and water records and this week's report, and the
    trailing run of days that met both goals. */
module AchievementsPage {
  import opened Js
  import opened Queries
  import opened CalorieEngine
  import opened Meals
  import U = UserRepository
  import R = MealRepository
  import W = WaterRepository
  import Server

  datatype Conquista =
    | PrimeiraRefeicao | PrimeiraAgua | MetaCalorias | MetaAgua
    | SemanaCompleta | Streak3 | Streak7 | Streak30

  /** The achievements in the order the page lists them and pushes them. */
  const Conquistas: seq<Conquista> :=
    [PrimeiraRefeicao, PrimeiraAgua, MetaCalorias, MetaAgua, SemanaCompleta, Streak3, Streak7, Streak30]

  /** The position of an achievement in that order. */
  function Rank(c: Conquista): (r: nat)
    ensures r < |Conquistas| && Conquistas[r] == c
  {
    match c
    case PrimeiraRefeicao => 0
    case PrimeiraAgua => 1
    case MetaCalorias => 2
    case MetaAgua => 3
    case SemanaCompleta => 4
    case Streak3 => 5
    case Streak7 => 6
    case Streak30 => 7
  }

  // ------------------------------------------------------------ streak

  /** The number of days at the end of the report that met both goals:
      the longest suffix of `ds` in which every day has `bateuAmbas`. */
  function TrailingStreak(ds: seq<DayReport>): (r: nat)
    ensures r <= |ds|
    ensures forall k :: |ds| - r <= k < |ds| ==> ds[k].bateuAmbas
    ensures r < |ds| ==> !ds[|ds| - 1 - r].bateuAmbas
  {
    if ds == [] || !ds[|ds| - 1].bateuAmbas then 0
    else 1 + TrailingStreak(ds[..|ds| - 1])
  }

  /** The streak loop: from the last record backwards, counting until the
      first day that did not meet both goals. */
  method Streak(relatorio: seq<DayReport>) returns (streak: nat)
    ensures streak == TrailingStreak(relatorio)
  {
    streak := 0;
    var i: int := |relatorio| - 1;
    while i >= 0
      invariant -1 <= i < |relatorio|
      invariant streak == |relatorio| - 1 - i
      invariant forall k :: i < k < |relatorio| ==> relatorio[k].bateuAmbas
      decreases i
    {
      if relatorio[i].bateuAmbas {
        streak := streak + 1;
      } else {
        break;
      }
      i := i - 1;
    }
  }

  /** A day with nothing eaten never meets the calorie band, whatever the
      goal: the band of a non-zero goal does not contain 0. */
  lemma EmptyDayMissesBoth(data: int, totalAgua: int, metas: U.Metas)
    ensures !EvaluateDay(data, [], totalAgua, metas).bateuAmbas
  {
    var g := CalorieGoal(metas);
    assert ServerDayCalories([]) == 0.0;
    assert !InCalorieBand(0.0, g);
  }

  /** The streak read off this week's report is 0 whenever the week's
      Sunday has no meals yet, however many days before it met both
      goals: the scan starts at the last day of the week, not at today. */
  lemma WeekStreakZeroUntilSunday(mt: R.MealTable, wt: seq<W.AguaRow>, deviceId: string, hoje: int, metas: U.Metas)
    requires R.ByDate(mt, deviceId, Monday(hoje) + 6) == []
    ensures TrailingStreak(Server.Reports(mt, wt, deviceId, Server.Week(hoje), metas)) == 0
  {
    var dias := Server.Week(hoje);
    Server.ReportsAt(mt, wt, deviceId, dias, metas, 6);
    EmptyDayMissesBoth(dias[6], W.ByDate(wt, deviceId, dias[6]).total, metas);
  }

  /** The streak of the days up to and including `hoje`, the position of
      today in the report. */
  function StreakUntil(ds: seq<DayReport>, hoje: int): (r: nat)
    requires 0 <= hoje < |ds|
    ensures r <= hoje + 1
  {
    TrailingStreak(ds[..hoje + 1])
  }

  /** The loop started at today's record instead of the last one. */
  method StreakCorrected(relatorio: seq<DayReport>, hoje: int) returns (streak: nat)
    requires 0 <= hoje < |relatorio|
    ensures streak == StreakUntil(relatorio, hoje)
  {
    streak := 0;
    var i: int := hoje;
    while i >= 0
      invariant -1 <= i <= hoje
      invariant streak == hoje - i
      invariant forall k :: i < k <= hoje ==> relatorio[k].bateuAmbas
      decreases i
    {
      if relatorio[i].bateuAmbas {
        streak := streak + 1;
      } else {
        break;
      }
      i := i - 1;
    }
    var pre := relatorio[..hoje + 1];
    assert forall k :: i < k <= hoje ==> pre[k].bateuAmbas;
  }

  /** The corrected streak counts the run that ends today, and the days
      after today do not change it. */
  lemma StreakCountsRunEndingToday(ds: seq<DayReport>, ds': seq<DayReport>, hoje: int, n: nat)
    requires 0 <= hoje < |ds| && |ds'| == |ds| && ds[..hoje + 1] == ds'[..hoje + 1]
    requires n <= hoje + 1 && forall k :: hoje + 1 - n <= k <= hoje ==> ds[k].bateuAmbas
    ensures StreakUntil(ds, hoje) >= n
    ensures StreakUntil(ds, hoje) == StreakUntil(ds', hoje)
  {
    var pre := ds[..hoje + 1];
    var r := StreakUntil(ds, hoje);
    if r < hoje + 1 {
      assert !pre[hoje - r].bateuAmbas;
      assert pre[hoje - r] == ds[hoje - r];
    }
    assert pre == ds'[..hoje + 1];
  }

  // ------------------------------------------------------------ unlocking

  /** A report day with any calories or water. */
  predicate ComDados(d: DayReport)
  {
    d.totalCalorias > 0.0 || d.totalAgua > 0
  }

  /** `relatorio.filter(d => d.totalCalorias > 0 || d.totalAgua > 0).length`. */
  function DiasComDados(relatorio: seq<DayReport>): (r: nat)
    ensures r <= |relatorio|
  {
    |Filter(relatorio, ComDados)|
  }

  /** On a seven-day report, "Semana Completa" needs every one of the
      seven days to have calories or water. */
  lemma SemanaCompletaNeedsEveryDay(relatorio: seq<DayReport>)
    requires |relatorio| == 7
    ensures DiasComDados(relatorio) >= 7 <==> forall k :: 0 <= k < 7 ==> ComDados(relatorio[k])
  {
    if forall k :: 0 <= k < 7 ==> ComDados(relatorio[k]) {
      FilterAll(relatorio, ComDados);
    } else {
      var k :| 0 <= k < 7 && !ComDados(relatorio[k]);
      FilterDrops(relatorio, ComDados, k);
    }
  }

  /** The three cards of the page. */
  datatype Stats = Stats(refeicoes: nat, agua: nat, dias: nat)

  /** `relatorio.filter(d => d.bateuCalorias).length`. */
  function DiasBateuCalorias(relatorio: seq<DayReport>): nat
  {
    |Filter(relatorio, (x: DayReport) => x.bateuCalorias)|
  }

  /** `relatorio.filter(d => d.bateuAgua).length`. */
  function DiasBateuAgua(relatorio: seq<DayReport>): nat
  {
    |Filter(relatorio, (x: DayReport) => x.bateuAgua)|
  }

  /** The rule under which each achievement unlocks. */
  predicate Earned(c: Conquista, totalRefeicoes: nat, totalAgua: nat, relatorio: seq<DayReport>)
  {
    match c
    case PrimeiraRefeicao => totalRefeicoes > 0
    case PrimeiraAgua => totalAgua > 0
    case MetaCalorias => DiasBateuCalorias(relatorio) > 0
    case MetaAgua => DiasBateuAgua(relatorio) > 0
    case SemanaCompleta => DiasComDados(relatorio) >= 7
    case Streak3 => TrailingStreak(relatorio) >= 3
    case Streak7 => TrailingStreak(relatorio) >= 7
    case Streak30 => TrailingStreak(relatorio) >= 30
  }

  /** What the rules mean: the two goal achievements need some day that
      met the goal, and the longer streaks include the shorter ones. */
  lemma EarnedMeaning(totalRefeicoes: nat, totalAgua: nat, relatorio: seq<DayReport>)
    ensures Earned(MetaCalorias, totalRefeicoes, totalAgua, relatorio)
            <==> exists k :: 0 <= k < |relatorio| && relatorio[k].bateuCalorias
    ensures Earned(MetaAgua, totalRefeicoes, totalAgua, relatorio)
            <==> exists k :: 0 <= k < |relatorio| && relatorio[k].bateuAgua
    ensures Earned(Streak7, totalRefeicoes, totalAgua, relatorio) ==> Earned(Streak3, totalRefeicoes, totalAgua, relatorio)
    ensures Earned(Streak30, totalRefeicoes, totalAgua, relatorio) ==> Earned(Streak7, totalRefeicoes, totalAgua, relatorio)
    ensures Earned(Streak30, totalRefeicoes, totalAgua, relatorio) ==> |relatorio| >= 30
  {
    FilterNonEmpty(relatorio, (x: DayReport) => x.bateuCalorias);
    FilterNonEmpty(relatorio, (x: DayReport) => x.bateuAgua);
  }

  /** `d` lists, in rank order and once each, exactly the achievements of
      rank below `n` that are earned. */
  ghost predicate PushedUpTo(d: seq<Conquista>, n: nat, totalRefeicoes: nat, totalAgua: nat, relatorio: seq<DayReport>)
  {
    && (forall i, j :: 0 <= i < j < |d| ==> Rank(d[i]) < Rank(d[j]))
    && (forall x :: x in d ==> Rank(x) < n)
    && (forall x :: Rank(x) < n ==> (x in d <==> Earned(x, totalRefeicoes, totalAgua, relatorio)))
  }

  /** `if (cond) desbloqueadas.push(c)`. */
  function PushIf(d: seq<Conquista>, cond: bool, c: Conquista): (r: seq<Conquista>)
    ensures cond ==> r == d + [c]
    ensures !cond ==> r == d
  {
    if cond then d + [c] else d
  }

  /** Two achievements of the same rank are the same one. */
  lemma RankInjective(x: Conquista, c: Conquista)
    requires Rank(x) == Rank(c)
    ensures x == c
  {
    assert Conquistas[Rank(x)] == x && Conquistas[Rank(c)] == c;
  }

  /** Pushing `c` after achievements of lower rank keeps the ranks
      increasing and below `Rank(c) + 1`. */
  lemma PushOrdered(d: seq<Conquista>, cond: bool, c: Conquista)
    requires forall i, j :: 0 <= i < j < |d| ==> Rank(d[i]) < Rank(d[j])
    requires forall x :: x in d ==> Rank(x) < Rank(c)
    ensures var d' := PushIf(d, cond, c);
      && (forall i, j :: 0 <= i < j < |d'| ==> Rank(d'[i]) < Rank(d'[j]))
      && (forall x :: x in d' ==> Rank(x) < Rank(c) + 1)
  {
  }

  /** Membership of one achievement of rank at most `Rank(c)` after the
      push, with the rules' verdicts given as booleans. */
  lemma PushMember(d: seq<Conquista>, cond: bool, c: Conquista, x: Conquista, earned: bool)
    requires forall y :: y in d ==> Rank(y) < Rank(c)
    requires Rank(x) <= Rank(c)
    requires Rank(x) < Rank(c) ==> (x in d <==> earned)
    requires x == c ==> earned == cond
    ensures x in PushIf(d, cond, c) <==> earned
  {
    if Rank(x) == Rank(c) {
      RankInjective(x, c);
    }
  }

  /** One conditional `push`, in rank order, keeps that shape. */
  lemma PushStep(d: seq<Conquista>, c: Conquista, totalRefeicoes: nat, totalAgua: nat, relatorio: seq<DayReport>)
    requires PushedUpTo(d, Rank(c), totalRefeicoes, totalAgua, relatorio)
    ensures PushedUpTo(PushIf(d, Earned(c, totalRefeicoes, totalAgua, relatorio), c), Rank(c) + 1, totalRefeicoes, totalAgua, relatorio)
  {
    var cond := Earned(c, totalRefeicoes, totalAgua, relatorio);
    PushOrdered(d, cond, c);
    forall x | Rank(x) < Rank(c) + 1
      ensures x in PushIf(d, cond, c) <==> Earned(x, totalRefeicoes, totalAgua, relatorio)
    {
      PushMember(d, cond, c, x, Earned(x, totalRefeicoes, totalAgua, relatorio));
    }
  }

  /** One `if (cond) desbloqueadas.push(c)` of the unlocking code, taken
      in rank order with the condition of `c`'s rule. */
  method Push(d: seq<Conquista>, cond: bool, c: Conquista, ghost totalRefeicoes: nat, ghost totalAgua: nat, ghost relatorio: seq<DayReport>)
    returns (d': seq<Conquista>)
    requires PushedUpTo(d, Rank(c), totalRefeicoes, totalAgua, relatorio)
    requires cond == Earned(c, totalRefeicoes, totalAgua, relatorio)
    ensures |d'| == |d| + (if cond then 1 else 0) && d'[..|d|] == d
    ensures PushedUpTo(d', Rank(c) + 1, totalRefeicoes, totalAgua, relatorio)
  {
    PushStep(d, c, totalRefeicoes, totalAgua, relatorio);
    d' := PushIf(d, cond, c);
  }

  /** The first five pushes of the unlocking code: the record and goal
      achievements and "Semana Completa". */
  method DesbloquearRegistros(totalRefeicoes: nat, totalAgua: nat, relatorio: seq<DayReport>) returns (d: seq<Conquista>)
    ensures PushedUpTo(d, Rank(Streak3), totalRefeicoes, totalAgua, relatorio)
  {
    ghost var tr, ta, rel := totalRefeicoes, totalAgua, relatorio;
    d := [];
    d := Push(d, totalRefeicoes > 0, PrimeiraRefeicao, tr, ta, rel);
    d := Push(d, totalAgua > 0, PrimeiraAgua, tr, ta, rel);
    var diasBateuCalorias := DiasBateuCalorias(relatorio);
    var diasBateuAgua := DiasBateuAgua(relatorio);
    d := Push(d, diasBateuCalorias > 0, MetaCalorias, tr, ta, rel);
    d := Push(d, diasBateuAgua > 0, MetaAgua, tr, ta, rel);
    d := Push(d, DiasComDados(relatorio) >= 7, SemanaCompleta, tr, ta, rel);
  }

  /** The unlocked achievements, pushed in the page's order: each one
      unlocks exactly under its rule, and none twice. */
  method Desbloquear(totalRefeicoes: nat, totalAgua: nat, relatorio: seq<DayReport>) returns (d: seq<Conquista>)
    ensures forall i, j :: 0 <= i < j < |d| ==> Rank(d[i]) < Rank(d[j])
    ensures forall i, j :: 0 <= i < j < |d| ==> d[i] != d[j]
    ensures forall c :: c in d <==> Earned(c, totalRefeicoes, totalAgua, relatorio)
  {
    ghost var tr, ta, rel := totalRefeicoes, totalAgua, relatorio;
    d := DesbloquearRegistros(totalRefeicoes, totalAgua, relatorio);
    var streak := Streak(relatorio);
    d := Push(d, streak >= 3, Streak3, tr, ta, rel);
    d := Push(d, streak >= 7, Streak7, tr, ta, rel);
    d := Push(d, streak >= 30, Streak30, tr, ta, rel);
  }

  /** A filter is non-empty exactly when some element passes. */
  lemma {:induction false} FilterNonEmpty(s: seq<DayReport>, p: DayReport -> bool)
    ensures |Filter(s, p)| > 0 <==> exists k :: 0 <= k < |s| && p(s[k])
  {
    if s != [] {
      FilterNonEmpty(s[1..], p);
      if p(s[0]) {
        assert p(s[0]);
      } else {
        assert forall k :: 1 <= k < |s| ==> s[k] == s[1..][k - 1];
        assert (exists k :: 0 <= k < |s| && p(s[k])) ==> exists k :: 0 <= k < |s[1..]| && p(s[1..][k]);
      }
    }
  }

  /** `loadConquistas`: each fetch that fails counts as empty, so a
      failed report leaves only the first two achievements reachable. */
  method LoadConquistas(refeicoes: Result<seq<Meal>>, agua: Result<W.DayWater>, relatorio: Result<seq<DayReport>>)
    returns (stats: Stats, d: seq<Conquista>)
    ensures stats.refeicoes == (if refeicoes.Ok? then |refeicoes.value| else 0)
    ensures stats.agua == (if agua.Ok? then |agua.value.registros| else 0)
    ensures stats.dias == (if relatorio.Ok? then DiasComDados(relatorio.value) else 0)
    ensures forall i, j :: 0 <= i < j < |d| ==> Rank(d[i]) < Rank(d[j])
    ensures forall c :: c in d <==> Earned(c, stats.refeicoes, stats.agua, if relatorio.Ok? then relatorio.value else [])
    ensures PrimeiraRefeicao in d <==> refeicoes.Ok? && refeicoes.value != []
    ensures PrimeiraAgua in d <==> agua.Ok? && agua.value.registros != []
    ensures relatorio.Err? ==> forall c :: c in d ==> c == PrimeiraRefeicao || c == PrimeiraAgua
  {
    var ms := if refeicoes.Ok? then refeicoes.value else [];
    var registros := if agua.Ok? then agua.value.registros else [];
    var rel := if relatorio.Ok? then relatorio.value else [];
    stats := Stats(|ms|, |registros|, DiasComDados(rel));
    d := Desbloquear(|ms|, |registros|, rel);
  }

  /** With the server's seven-day report, "Mestre da Dieta" never unlocks. */
  lemma Streak30NeverOnWeek(mt: R.MealTable, wt: seq<W.AguaRow>, deviceId: string, hoje: int, metas: U.Metas)
    ensures TrailingStreak(Server.Reports(mt, wt, deviceId, Server.Week(hoje), metas)) < 30
  {
    Server.ReportsLength(mt, wt, deviceId, Server.Week(hoje), metas);
  }
}
