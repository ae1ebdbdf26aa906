/** The fixed daily goals of the meals, overview and water pages (1600
    kcal, 4000 ml) and what they show against them: the calorie status
    band, the calories left or in excess, the water still missing and the
    progress-bar widths. */
module DayStatus {
  import opened Js
  import CalorieEngine

  const CaloriaMeta: int := 1600
  const AguaMeta: int := 4000

  datatype Status = Acima | Abaixo | Atingida  // 'acima', 'abaixo', 'ok'

  /** `total > META ? 'acima' : total < META * 0.8 ? 'abaixo' : 'ok'`. */
  function CalorieStatus(total: real): (r: Status)
    ensures r == Acima <==> total > 1600.0
    ensures r == Abaixo <==> total < 1280.0
    ensures r == Atingida <==> 1280.0 <= total <= 1600.0
  {
    if total > CaloriaMeta as real then Acima
    else if total < CaloriaMeta as real * 0.8 then Abaixo
    else Atingida
  }

  /** The pages' 'ok' band is the weekly report's calorie band at the
      default goal. */
  lemma OkIsReportBand(total: real)
    ensures CalorieStatus(total) == Atingida <==> CalorieEngine.InCalorieBand(total, CaloriaMeta)
  {
  }

  /** `total > META ? 0 : META - total`. */
  function CaloriasRestantes(total: real): (r: real)
    ensures r >= 0.0
    ensures total <= 1600.0 ==> total + r == 1600.0
    ensures total > 1600.0 ==> r == 0.0
  {
    if total > CaloriaMeta as real then 0.0 else CaloriaMeta as real - total
  }

  /** `ultrapassou ? total - META : 0`, with `ultrapassou = total > META`. */
  function Excesso(total: real): (r: real)
    ensures r >= 0.0
    ensures r > 0.0 <==> total > 1600.0
    ensures r > 0.0 ==> total == 1600.0 + r
  {
    if total > CaloriaMeta as real then total - CaloriaMeta as real else 0.0
  }

  /** At most one of the two is non-zero, and together they measure the
      distance to the goal. */
  lemma RestantesAndExcesso(total: real)
    ensures CaloriasRestantes(total) == 0.0 || Excesso(total) == 0.0
    ensures CaloriasRestantes(total) - Excesso(total) == 1600.0 - total
  {
  }

  /** `Math.max(0, META - consumida)`. */
  function AguaFalta(consumida: int): (r: int)
    ensures r >= 0
    ensures r == 0 <==> consumida >= 4000
    ensures r > 0 ==> consumida + r == 4000
  {
    Max(0, AguaMeta - consumida)
  }

  /** `Math.min(100, consumed / meta * 100)`, the width of a progress bar in percent. */
  function Progress(consumed: real, meta: int): (r: real)
    requires meta > 0
    ensures r <= 100.0
    ensures consumed >= meta as real ==> r == 100.0
    ensures 0.0 <= consumed < meta as real ==> 0.0 <= r < 100.0
  {
    MinReal(100.0, consumed / meta as real * 100.0)
  }

  /** The water bar is full exactly when nothing is missing. */
  lemma WaterBarFullIffMet(consumida: int)
    requires consumida >= 0
    ensures Progress(consumida as real, AguaMeta) == 100.0 <==> AguaFalta(consumida) == 0
  {
  }
}
