/** The water page: what is still missing of the fixed 4000 ml goal, the
    goal-met message and progress bar, the custom-amount form, and the
    listing of today's entries newest first. */
module WaterPage {
  import opened Js
  import opened Text
  import opened Queries
  import D = DayStatus
  import W = WaterRepository

  /** The quick-add buttons: 200 ml, 500 ml and 1.5 l. */
  const Opcoes: seq<int> := [200, 500, 1500]

  /** What the summary card shows for a day total. */
  datatype Summary = Summary(aguaConsumida: int, aguaFalta: int, metaAtingida: bool, largura: real)

  /** `aguaConsumida = agua.total || 0`, `aguaFalta`, the message and the
      bar width `Math.min(100, porcentagemAgua)`. */
  function WaterSummary(total: int): (r: Summary)
    ensures r.aguaConsumida == total
    ensures r.aguaFalta >= 0 && (r.aguaFalta > 0 ==> total + r.aguaFalta == 4000)
    ensures r.metaAtingida <==> total >= 4000
    ensures r.metaAtingida <==> r.aguaFalta == 0
    ensures r.largura <= 100.0 && (r.metaAtingida ==> r.largura == 100.0)
    ensures 0 <= total < 4000 ==> 0.0 <= r.largura < 100.0
  {
    var consumida := OrInt(total, 0);
    var falta := D.AguaFalta(consumida);
    Summary(consumida, falta, !(falta > 0), D.Progress(consumida as real, D.AguaMeta))
  }

  /** Adding a positive amount never raises what is missing, and lowers
      it while the goal is not yet met. */
  lemma AddingLowersFalta(total: int, quantidade: int)
    requires quantidade > 0
    ensures WaterSummary(total + quantidade).aguaFalta <= WaterSummary(total).aguaFalta
    ensures !WaterSummary(total).metaAtingida ==> WaterSummary(total + quantidade).aguaFalta < WaterSummary(total).aguaFalta
    ensures WaterSummary(total).metaAtingida ==> WaterSummary(total + quantidade).metaAtingida
  {
  }

  /** The outcome of submitting the custom-amount form: the amount sent
      to `POST /api/agua`, if any, and the field's new text. */
  datatype CustomAdd = CustomAdd(sent: Option<int>, field: string)

  /** `handleCustomAdd`: `parseInt` of the field is sent only when it is
      a number above 0, and then the field is cleared. */
  function HandleCustomAdd(customAmount: string): (r: CustomAdd)
    ensures r.sent.Some? <==> ParseInt(customAmount).Some? && ParseInt(customAmount).value > 0
    ensures r.sent.Some? ==> r.sent.value == ParseInt(customAmount).value && r.sent.value > 0 && r.field == ""
    ensures r.sent.None? ==> r.field == customAmount
  {
    match ParseInt(customAmount)
    case Some(amount) =>
      if amount != 0 && amount > 0 then CustomAdd(Some(amount), "") else CustomAdd(None, customAmount)
    case None => CustomAdd(None, customAmount)
  }

  /** Worked cases: "250" is sent and clears the field; an empty field sends nothing. */
  lemma CustomAddExamples()
    ensures HandleCustomAdd("250") == CustomAdd(Some(250), "")
    ensures HandleCustomAdd("") == CustomAdd(None, "")
  {
    ParseIntExamples();
  }

  /** Once an amount is sent and stored, the reloaded day total grows by
      it, so the missing amount shrinks as `AddingLowersFalta` states. */
  lemma CustomAddRaisesTotal(t: W.AguaTable, deviceId: string, hoje: int, customAmount: string)
    requires HandleCustomAdd(customAmount).sent.Some?
    ensures var q := HandleCustomAdd(customAmount).sent.value;
      var after := W.ByDate(W.Created(t, deviceId, hoje, q).rows, deviceId, hoje).total;
      var before := W.ByDate(t.rows, deviceId, hoje).total;
      after == before + q && WaterSummary(after).aguaFalta <= WaterSummary(before).aguaFalta
  {
    var q := HandleCustomAdd(customAmount).sent.value;
    W.CreateAddsToTotal(t, deviceId, hoje, q, deviceId, hoje);
    AddingLowersFalta(W.ByDate(t.rows, deviceId, hoje).total, q);
  }

  /** The listed entries: `registros.sort((a, b) => b.timestamp - a.timestamp)`,
      a stable sort newest first. */
  function Listed(registros: seq<W.AguaRow>): (r: seq<W.AguaRow>)
    ensures Sorted(r, W.NewerFirst)
    ensures multiset(r) == multiset(registros)
  {
    W.OrdersArePreorders();
    Sort(registros, W.NewerFirst)
  }

  /** The server already lists the day newest first, so the page shows
      the entries in exactly the order it received them. */
  lemma ListedInServerOrder(rows: seq<W.AguaRow>, deviceId: string, data: int)
    ensures Listed(W.ByDate(rows, deviceId, data).registros) == W.ByDate(rows, deviceId, data).registros
  {
    W.OrdersArePreorders();
    SortSorted(W.ByDate(rows, deviceId, data).registros, W.NewerFirst);
  }
}
