/** The meals page: the day's total and status against the fixed goal,
    the form that builds a meal item by item, saving it, and the food
    search box. */
module MealsPage {
  import opened Js
  import opened Queries
  import opened Meals
  import opened CalorieEngine
  import D = DayStatus
  import F = FoodRepository
  import R = MealRepository
  import Server

  const TiposRefeicao: seq<string> := ["jejum", "café da manhã", "almoço", "café da tarde", "jantar"]

  /** The header badge: the day total, its status and the calories left. */
  datatype Summary = Summary(total: real, status: D.Status, restantes: real)

  function PageSummary(refeicoes: seq<Meal>): (r: Summary)
    ensures r.total == DayCalories(refeicoes)
    ensures r.status == D.CalorieStatus(r.total) && r.restantes == D.CaloriasRestantes(r.total)
  {
    var total := DayCalories(refeicoes);
    Summary(total, D.CalorieStatus(total), D.CaloriasRestantes(total))
  }

  /** The page's total is the weekly report's total for the same day. */
  lemma SummaryMatchesReport(t: R.MealTable, deviceId: string, data: int, totalAgua: int, metas: UserRepository.Metas)
    ensures PageSummary(Server.FormatMeals(R.ByDate(t, deviceId, data))).total
         == EvaluateDay(data, R.ByDate(t, deviceId, data), totalAgua, metas).totalCalorias
  {
    Server.PagesAgreeWithReport(t, deviceId, data, totalAgua, metas);
  }

  // ------------------------------------------------------------ the form

  /** An item of the meal being built; `id` is the time it was added. */
  datatype FormItem = FormItem(id: int, alimentoId: int, alimentoNome: string, quantidade: JsNum, unidade: string, calorias: real)

  /** The item being entered: the selected food, the typed quantity and
      the calories computed for it so far. */
  datatype NovoItem = NovoItem(alimentoId: Option<int>, alimentoNome: string, quantidade: string, unidade: string, calorias: real)

  const EmptyNovoItem: NovoItem := NovoItem(None, "", "", "g", 0.0)

  /** `novoItem.alimento_id && novoItem.quantidade`. */
  predicate CanAdd(n: NovoItem)
  {
    n.alimentoId.Some? && n.alimentoId.value != 0 && n.quantidade != ""
  }

  /** `itens.reduce((sum, item) => sum + item.calorias, 0)`. */
  function FormTotal(itens: seq<FormItem>): real
  {
    if itens == [] then 0.0 else itens[0].calorias + FormTotal(itens[1..])
  }

  /** A form item as the request body carries it. */
  function AsItemIn(i: FormItem): R.ItemIn
  {
    R.ItemIn(Some(i.alimentoId), Some(i.alimentoNome), None, i.quantidade, Some(i.unidade), Value(i.calorias))
  }

  function ItemsIn(itens: seq<FormItem>): (r: seq<R.ItemIn>)
    ensures |r| == |itens| && forall k :: 0 <= k < |itens| ==> r[k] == AsItemIn(itens[k])
  {
    seq(|itens|, k requires 0 <= k < |itens| => AsItemIn(itens[k]))
  }

  /** The server's `|| 0` item sum of a form's items is the form's own sum. */
  lemma {:induction false} ServerSumIsFormTotal(itens: seq<FormItem>)
    ensures ItemsInCalories(ItemsIn(itens)) == FormTotal(itens)
  {
    if itens != [] {
      ServerSumIsFormTotal(itens[1..]);
      assert ItemsIn(itens)[1..] == ItemsIn(itens[1..]);
    }
  }

  /** The body `salvarRefeicao` posts for a non-fasting meal. */
  function MealBodyOf(tipo: string, itens: seq<FormItem>, hoje: int): MealBody
  {
    MealBody(Some(hoje), tipo, Some(ItemsIn(itens)), None, None, Missing, Missing, Value(FormTotal(itens)), None)
  }

  /** The body posted for a fast: no items and a total of 0. */
  function FastBody(hoje: int): MealBody
  {
    MealBody(Some(hoje), "jejum", Some([]), None, None, Missing, Missing, Value(0.0), None)
  }

  /** A meal saved from the form is stored with the form's total, whether
      that total is truthy or 0. */
  lemma SavedTotalIsFormTotal(tipo: string, itens: seq<FormItem>, hoje: int)
    ensures NormalizeMeal(MealBodyOf(tipo, itens, hoje), hoje).caloriasTotal == Value(FormTotal(itens))
    ensures NormalizeMeal(MealBodyOf(tipo, itens, hoje), hoje).itens == Some(ItemsIn(itens))
  {
    ServerSumIsFormTotal(itens);
  }

  /** Once stored and listed, a meal saved from the form is counted by
      the weekly report at exactly its stored total. */
  lemma SavedMealCountsAtItsTotal(t: R.MealTable, deviceId: string, tipo: string, itens: seq<FormItem>, hoje: int)
    requires R.ValidTable(t)
    ensures var m := NormalizeMeal(MealBodyOf(tipo, itens, hoje), hoje);
      var listed := R.ByDate(R.Created(t, deviceId, m), deviceId, hoje);
      |listed| > 0 && listed[0].caloriasTotal == Value(FormTotal(itens))
      && ServerMealCalories(listed[0]) == FormTotal(itens)
  {
    var m := NormalizeMeal(MealBodyOf(tipo, itens, hoje), hoje);
    SavedTotalIsFormTotal(tipo, itens, hoje);
    R.CreateThenList(t, deviceId, m);
    var listed := R.ByDate(R.Created(t, deviceId, m), deviceId, hoje);
    var xs := R.ItemsToStore(m);
    forall k | 0 <= k < |xs|
      ensures Or(listed[0].itens[k].calorias, 0.0) == Or(xs[k].calorias, 0.0)
    {
    }
    Server.ListedItemsWorth(listed[0].itens, xs);
    ServerSumIsFormTotal(itens);
  }

  /** What the search box asks of the server. */
  datatype SearchAction = Fetch(term: string) | FetchAll | Wait

  /** The dropdown: the loaded foods whose name contains the term,
      ignoring case, first 10. */
  function Filtered(alimentos: seq<F.Food>, term: string): (r: seq<F.Food>)
    ensures |r| <= 10
    ensures forall f :: f in r ==> f in alimentos && F.Matches(f, term)
    ensures r <= F.Matching(alimentos, term)
    ensures |F.Matching(alimentos, term)| <= 10 ==> r == F.Matching(alimentos, term)
    ensures |F.Matching(alimentos, term)| > 10 ==> r == F.Matching(alimentos, term)[..10]
  {
    Take(F.Matching(alimentos, term), 10)
  }

  /** The foods the server sends for a term already match it, so the
      dropdown shows the first 10 of them. */
  lemma DropdownShowsServerResults(foods: seq<F.Food>, term: string)
    requires term != ""
    ensures Filtered(F.GetAll(foods, Some(term)), term) == Take(F.GetAll(foods, Some(term)), 10)
  {
    var got := F.GetAll(foods, Some(term));
    F.EmptySearchIsNoSearch(foods);
    FilterAll(got, f => F.Matches(f, term));
  }

  /** The state of the meal form. */
  class MealForm {
    var tipo: string
    var itens: seq<FormItem>
    var novoItem: NovoItem
    var searchTerm: string

    constructor ()
      ensures tipo == "café da manhã" && itens == [] && novoItem == EmptyNovoItem && searchTerm == ""
    {
      tipo := "café da manhã";
      itens := [];
      novoItem := EmptyNovoItem;
      searchTerm := "";
    }

    /** `adicionarItemARefeicao`: refused without a food and a quantity;
        when no calories were computed yet they are fetched (`fetched`
        is the answer of `/api/calcular-calorias`). The item goes at the
        end and the entry fields are cleared. */
    method AddItem(now: int, fetched: Result<int>) returns (r: Result<FormItem>)
      modifies this
      ensures tipo == old(tipo)
      ensures !CanAdd(old(novoItem)) ==>
        r == Err("Por favor, selecione um alimento e informe a quantidade") && itens == old(itens) && novoItem == old(novoItem) && searchTerm == old(searchTerm)
      ensures CanAdd(old(novoItem)) && old(novoItem.calorias) == 0.0 && fetched.Err? ==>
        r == Err("Erro ao calcular calorias. Tente novamente.") && itens == old(itens) && novoItem == old(novoItem) && searchTerm == old(searchTerm)
      ensures CanAdd(old(novoItem)) && (old(novoItem.calorias) != 0.0 || fetched.Ok?) ==> r.Ok?
      ensures r.Ok? ==> CanAdd(old(novoItem)) && itens == old(itens) + [r.value] && novoItem == EmptyNovoItem && searchTerm == ""
      ensures r.Ok? ==> var n := old(novoItem);
        r.value == FormItem(now, n.alimentoId.value, n.alimentoNome, Text.ParseFloat(n.quantidade), n.unidade,
                            if n.calorias != 0.0 then n.calorias else fetched.value as real)
    {
      if !CanAdd(novoItem) {
        return Err("Por favor, selecione um alimento e informe a quantidade");
      }
      var calorias := novoItem.calorias;
      if calorias == 0.0 {
        if fetched.Err? {
          return Err("Erro ao calcular calorias. Tente novamente.");
        }
        calorias := fetched.value as real;
      }
      var item := FormItem(now, novoItem.alimentoId.value, novoItem.alimentoNome, Text.ParseFloat(novoItem.quantidade), novoItem.unidade, calorias);
      itens := itens + [item];
      novoItem := EmptyNovoItem;
      searchTerm := "";
      r := Ok(item);
    }

    /** `removerItemDaRefeicao(itemId)`: drops every item with that id. */
    method RemoveItem(itemId: int)
      modifies this
      ensures itens == Filter(old(itens), (i: FormItem) => i.id != itemId)
      ensures tipo == old(tipo) && novoItem == old(novoItem) && searchTerm == old(searchTerm)
    {
      itens := Filter(itens, (i: FormItem) => i.id != itemId);
    }

    /** `salvarRefeicao`: a fast is posted with no items and total 0; any
        other meal needs an item and is posted with the items' total
        (`sent` is the body posted, if any). `posted` tells whether the
        POST and the reload that follows it completed: only then is the
        form reset; a failure leaves the form as it was. */
    method SaveMeal(hoje: int, posted: bool) returns (sent: Option<MealBody>, r: Result<MealBody>)
      modifies this
      ensures old(tipo) == "jejum" ==> sent == Some(FastBody(hoje))
      ensures old(tipo) != "jejum" && old(itens) == [] ==>
        sent == None && r == Err("Por favor, adicione pelo menos um alimento à refeição")
      ensures old(tipo) != "jejum" && old(itens) != [] ==> sent == Some(MealBodyOf(old(tipo), old(itens), hoje))
      ensures sent.Some? && posted ==> r == Ok(sent.value)
      ensures sent.Some? && !posted && old(tipo) == "jejum" ==>
        r == Err("Erro ao salvar jejum. Verifique se o servidor está rodando.")
      ensures sent.Some? && !posted && old(tipo) != "jejum" ==>
        r == Err("Erro ao salvar refeição. Verifique se o servidor está rodando.")
      ensures r.Ok? ==> tipo == "café da manhã" && itens == [] && novoItem == EmptyNovoItem && searchTerm == ""
      ensures r.Err? ==> tipo == old(tipo) && itens == old(itens) && novoItem == old(novoItem) && searchTerm == old(searchTerm)
    {
      if tipo == "jejum" {
        sent := Some(FastBody(hoje));
        if !posted {
          return sent, Err("Erro ao salvar jejum. Verifique se o servidor está rodando.");
        }
      } else if itens == [] {
        return None, Err("Por favor, adicione pelo menos um alimento à refeição");
      } else {
        sent := Some(MealBodyOf(tipo, itens, hoje));
        if !posted {
          return sent, Err("Erro ao salvar refeição. Verifique se o servidor está rodando.");
        }
      }
      r := Ok(sent.value);
      tipo := "café da manhã";
      itens := [];
      novoItem := EmptyNovoItem;
      searchTerm := "";
    }

    /** `handleSearch(term)`: fetches for two characters or more, reloads
        everything for none, and waits on a single character. */
    method HandleSearch(term: string) returns (action: SearchAction)
      modifies this
      ensures searchTerm == term && tipo == old(tipo) && itens == old(itens) && novoItem == old(novoItem)
      ensures |term| >= 2 <==> action == Fetch(term)
      ensures |term| == 0 <==> action == FetchAll
      ensures |term| == 1 <==> action == Wait
    {
      searchTerm := term;
      if |term| >= 2 {
        action := Fetch(term);
      } else if |term| == 0 {
        action := FetchAll;
      } else {
        action := Wait;
      }
    }
  }

  /** Removing keeps the other items in order and drops only that id. */
  lemma RemoveKeepsOthers(itens: seq<FormItem>, itemId: int)
    ensures forall i :: i in Filter(itens, (x: FormItem) => x.id != itemId) <==> i in itens && i.id != itemId
    ensures |Filter(itens, (x: FormItem) => x.id != itemId)| <= |itens|
  {
  }

  /** Adding then removing the new item's id gives back the items that
      did not share it. */
  lemma AddThenRemove(itens: seq<FormItem>, item: FormItem)
    ensures Filter(itens + [item], (x: FormItem) => x.id != item.id) == Filter(itens, (x: FormItem) => x.id != item.id)
  {
    FilterAppend(itens, [item], (x: FormItem) => x.id != item.id);
    assert Filter([item], (x: FormItem) => x.id != item.id) == [];
  }
}
