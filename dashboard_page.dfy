/** The day overview: calorie total and status against the fixed goal,
    water still missing, the meal count per type, and the over-goal
    warning that opens at most once a day. */
module DashboardPage {
  import opened Js
  import opened Queries
  import opened Meals
  import D = DayStatus

  /** What the cards show. */
  datatype Overview = Overview(
    totalCalorias: real, totalRefeicoes: nat, aguaConsumida: int, aguaFalta: int,
    caloriasRestantes: real, status: D.Status, ultrapassou: bool, excesso: real)

  function DayOverview(refeicoes: seq<Meal>, aguaTotal: int): (r: Overview)
    ensures r.totalCalorias == DayCalories(refeicoes) && r.totalRefeicoes == |refeicoes|
    ensures r.aguaConsumida == aguaTotal && r.aguaFalta == D.AguaFalta(aguaTotal)
    ensures r.status == D.CalorieStatus(r.totalCalorias)
    ensures r.ultrapassou <==> r.status == D.Acima
    ensures r.ultrapassou <==> r.excesso > 0.0
    ensures r.ultrapassou <==> r.totalCalorias > D.CaloriaMeta as real
    ensures r.caloriasRestantes == 0.0 || r.excesso == 0.0
    ensures r.caloriasRestantes >= 0.0 && r.excesso >= 0.0
    ensures r.caloriasRestantes - r.excesso == D.CaloriaMeta as real - r.totalCalorias
  {
    var total := DayCalories(refeicoes);
    var agua := OrInt(aguaTotal, 0);
    D.RestantesAndExcesso(total);
    Overview(total, |refeicoes|, agua, D.AguaFalta(agua),
             D.CaloriasRestantes(total), D.CalorieStatus(total), total > D.CaloriaMeta as real, D.Excesso(total))
  }

  /** The breakdown card lists these four types; fasts are not among them. */
  const TiposContados: seq<string> := ["café da manhã", "almoço", "café da tarde", "jantar"]

  function TypeCounts(refeicoes: seq<Meal>): (r: seq<nat>)
    ensures |r| == |TiposContados|
    ensures forall k :: 0 <= k < |r| ==> r[k] <= |refeicoes|
  {
    seq(|TiposContados|, k requires 0 <= k < |TiposContados| => CountTipo(refeicoes, TiposContados[k]))
  }

  /** The recursive count is the length of the filtered list. */
  lemma {:induction false} CountIsFilterLength(refeicoes: seq<Meal>, tipo: string)
    ensures CountTipo(refeicoes, tipo) == |Filter(refeicoes, (m: Meal) => m.tipo == tipo)|
  {
    if refeicoes != [] {
      CountIsFilterLength(refeicoes[1..], tipo);
    }
  }

  lemma TiposDistinct()
    ensures Distinct(TiposContados)
  {
    assert TiposContados[0][0] == 'c' && TiposContados[1][0] == 'a' && TiposContados[2][0] == 'c' && TiposContados[3][0] == 'j';
    assert TiposContados[0][8] == 'm' && TiposContados[2][8] == 't';
  }

  lemma SumOfFour(ms: seq<Meal>, t: seq<string>)
    requires |t| == 4
    ensures SumCounts(ms, t) == CountTipo(ms, t[0]) + CountTipo(ms, t[1]) + CountTipo(ms, t[2]) + CountTipo(ms, t[3])
  {
    var t1, t2, t3 := t[1..], t[2..], t[3..];
    assert t1[1..] == t2 && t2[1..] == t3 && t3[1..] == [];
    assert t1[0] == t[1] && t2[0] == t[2] && t3[0] == t[3];
    assert SumCounts(ms, t3) == CountTipo(ms, t[3]) + SumCounts(ms, []);
    assert SumCounts(ms, t2) == CountTipo(ms, t[2]) + SumCounts(ms, t3);
    assert SumCounts(ms, t1) == CountTipo(ms, t[1]) + SumCounts(ms, t2);
    assert SumCounts(ms, t) == CountTipo(ms, t[0]) + SumCounts(ms, t1);
  }

  /** The per-type counts add up to at most the number of meals, and to
      exactly that number when there is no fast or other type. */
  lemma CountsBoundedByTotal(refeicoes: seq<Meal>)
    ensures var c := TypeCounts(refeicoes); c[0] + c[1] + c[2] + c[3] <= |refeicoes|
    ensures (forall m :: m in refeicoes ==> m.tipo in TiposContados) ==>
      var c := TypeCounts(refeicoes); c[0] + c[1] + c[2] + c[3] == |refeicoes|
  {
    TiposDistinct();
    CountsPartition(refeicoes, TiposContados);
    SumOfFour(refeicoes, TiposContados);
    if forall m :: m in refeicoes ==> m.tipo in TiposContados {
      UncountedNone(refeicoes, TiposContados);
    }
  }

  /** The over-goal warning. `seen` holds the days whose "already shown"
      key is stored; `openings` counts, per day, how often the warning
      opened. */
  class WarningFlag {
    var seen: set<int>
    var showWarning: bool
    ghost var openings: map<int, nat>

    /** The warning opened at most once on any day, and only on a day
        whose key is now stored. */
    ghost predicate Valid()
      reads this
    {
      forall d :: d in openings ==> openings[d] == 1 && d in seen
    }

    constructor (stored: set<int>)
      ensures Valid()
      ensures seen == stored && !showWarning && openings == map[]
    {
      seen := stored;
      showWarning := false;
      openings := map[];
    }

    /** The modal is on screen while it is open and calories are over. */
    function Visible(ultrapassou: bool): bool
      reads this
    {
      showWarning && ultrapassou
    }

    /** The effect run when `ultrapassou` or `showWarning` changes: over
        the goal, not yet shown today and not open, it opens and stores
        today's key. */
    method Effect(today: int, ultrapassou: bool) returns (opens: bool)
      requires Valid()
      modifies this
      ensures Valid()
      ensures opens <==> ultrapassou && today !in old(seen) && !old(showWarning)
      ensures today in old(openings) ==> !opens
      ensures opens ==> showWarning && seen == old(seen) + {today} && openings == old(openings)[today := 1]
      ensures !opens ==> showWarning == old(showWarning) && seen == old(seen) && openings == old(openings)
    {
      opens := false;
      if ultrapassou {
        if today !in seen && !showWarning {
          showWarning := true;
          seen := seen + {today};
          openings := openings[today := 1];
          opens := true;
        }
      }
    }

    /** `handleCloseWarning`: closes the modal and stores today's key. */
    method Close(today: int)
      requires Valid()
      modifies this
      ensures Valid()
      ensures !showWarning && seen == old(seen) + {today} && openings == old(openings)
    {
      showWarning := false;
      seen := seen + {today};
    }
  }
}
