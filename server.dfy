/** The request handlers of the API over the five stores: meals, water,
    the weekly report, profile and goal endpoints, and foods. HTTP
    plumbing is left out; each handler is a method taking the request's
    device id and body, and `hoje` (today's day number) where the source
    reads the clock. */
module Server {
  import opened Js
  import opened Text
  import opened Meals
  import opened CalorieEngine
  import F = FoodRepository
  import P = ProfileRepository
  import W = WaterRepository
  import R = MealRepository
  import U = UserRepository

  // ------------------------------------------------- meal listing format

  /** One record of `GET /api/refeicoes`: `calorias_total` parsed with
      `|| 0`, copied into `calorias`, and `notas || ''`. */
  function FormatMeal(m: Meal): (r: Meal)
    ensures r.calorias == r.caloriasTotal && r.caloriasTotal == Value(Or(m.caloriasTotal, 0.0))
    ensures r.itens == m.itens && r.id == m.id && r.data == m.data && r.tipo == m.tipo && r.timestamp == m.timestamp
  {
    var total := Value(Or(m.caloriasTotal, 0.0));
    m.(caloriasTotal := total, calorias := total)
  }

  function FormatMeals(ms: seq<Meal>): (r: seq<Meal>)
    ensures |r| == |ms|
    ensures forall k :: 0 <= k < |ms| ==> r[k] == FormatMeal(ms[k])
  {
    seq(|ms|, k requires 0 <= k < |ms| => FormatMeal(ms[k]))
  }

  /** Formatting does not change what the weekly report counts for a meal. */
  lemma FormatKeepsServerCalories(m: Meal)
    ensures ServerMealCalories(FormatMeal(m)) == ServerMealCalories(m)
  {
  }

  lemma {:induction false} FormatKeepsServerDay(ms: seq<Meal>)
    ensures ServerDayCalories(FormatMeals(ms)) == ServerDayCalories(ms)
  {
    if ms != [] {
      FormatKeepsServerCalories(ms[0]);
      assert FormatMeals(ms)[1..] == FormatMeals(ms[1..]);
      FormatKeepsServerDay(ms[1..]);
    }
  }

  /** The day total the pages compute from `GET /api/refeicoes` equals the
      weekly report's total for that day. */
  lemma PagesAgreeWithReport(t: R.MealTable, deviceId: string, data: int, totalAgua: int, metas: U.Metas)
    ensures DayCalories(FormatMeals(R.ByDate(t, deviceId, data)))
         == EvaluateDay(data, R.ByDate(t, deviceId, data), totalAgua, metas).totalCalorias
  {
    var listed := FormatMeals(R.ByDate(t, deviceId, data));
    DayRulesAgree(listed);
    FormatKeepsServerDay(R.ByDate(t, deviceId, data));
  }

  // ------------------------------------------- stored totals are coherent

  /** Listed items are worth what the body's items were worth with `|| 0`. */
  lemma {:induction false} ListedItemsWorth(listed: seq<Item>, xs: seq<R.ItemIn>)
    requires |listed| == |xs|
    requires forall k :: 0 <= k < |xs| ==> Or(listed[k].calorias, 0.0) == Or(xs[k].calorias, 0.0)
    ensures ItemsCalories(listed) == ItemsInCalories(xs)
  {
    if xs != [] {
      ListedItemsWorth(listed[1..], xs[1..]);
    }
  }

  /** A meal saved without a truthy `calorias_total`, or in the legacy
      one-food shape, is listed with a stored total equal to what the
      weekly report counts for it. */
  lemma SavedMealCoherent(t: R.MealTable, deviceId: string, b: MealBody, hoje: int)
    requires R.ValidTable(t)
    requires b.itens.None? || !Truthy(b.caloriasTotal)
    ensures var m := NormalizeMeal(b, hoje);
      var listed := R.ByDate(R.Created(t, deviceId, m), deviceId, m.data);
      |listed| > 0 && ServerMealCalories(listed[0]) == Or(listed[0].caloriasTotal, 0.0)
  {
    var m := NormalizeMeal(b, hoje);
    R.CreateThenList(t, deviceId, m);
    var listed := R.ByDate(R.Created(t, deviceId, m), deviceId, m.data);
    var xs := R.ItemsToStore(m);
    forall k | 0 <= k < |xs|
      ensures Or(listed[0].itens[k].calorias, 0.0) == Or(xs[k].calorias, 0.0)
    {
      assert listed[0].itens[k] == R.AsItem(R.StoredItem(xs[k], t.nextMealId, t.nextItemId + k));
    }
    ListedItemsWorth(listed[0].itens, xs);
  }

  // ------------------------------------------------------------ the API

  /** One day of the weekly report: the device's meals and water of that
      day, judged against the goals. */
  function ReportDay(mt: R.MealTable, wt: seq<W.AguaRow>, deviceId: string, day: int, metas: U.Metas): DayReport
  {
    EvaluateDay(day, R.ByDate(mt, deviceId, day), W.ByDate(wt, deviceId, day).total, metas)
  }

  /** The reports of the given days, in order. */
  function Reports(mt: R.MealTable, wt: seq<W.AguaRow>, deviceId: string, dias: seq<int>, metas: U.Metas): seq<DayReport>
  {
    if dias == [] then []
    else Reports(mt, wt, deviceId, dias[..|dias| - 1], metas) + [ReportDay(mt, wt, deviceId, dias[|dias| - 1], metas)]
  }

  /** One report per day. */
  lemma {:induction false} ReportsLength(mt: R.MealTable, wt: seq<W.AguaRow>, deviceId: string, dias: seq<int>, metas: U.Metas)
    ensures |Reports(mt, wt, deviceId, dias, metas)| == |dias|
  {
    if dias != [] {
      ReportsLength(mt, wt, deviceId, dias[..|dias| - 1], metas);
    }
  }

  /** The `k`-th report is the report of the `k`-th day. */
  lemma {:induction false} ReportsAt(mt: R.MealTable, wt: seq<W.AguaRow>, deviceId: string, dias: seq<int>, metas: U.Metas, k: int)
    requires 0 <= k < |dias|
    ensures |Reports(mt, wt, deviceId, dias, metas)| == |dias|
    ensures Reports(mt, wt, deviceId, dias, metas)[k] == ReportDay(mt, wt, deviceId, dias[k], metas)
  {
    var init := dias[..|dias| - 1];
    var r := Reports(mt, wt, deviceId, init, metas);
    ReportsLength(mt, wt, deviceId, init, metas);
    assert Reports(mt, wt, deviceId, dias, metas) == r + [ReportDay(mt, wt, deviceId, dias[|dias| - 1], metas)];
    if k < |dias| - 1 {
      ReportsAt(mt, wt, deviceId, init, metas, k);
      assert init[k] == dias[k];
    }
  }

  /** This week's days, Monday first. */
  function Week(hoje: int): (r: seq<int>)
    ensures |r| == 7 && forall i :: 0 <= i < 7 ==> r[i] == Monday(hoje) + i
  {
    seq(7, i => Monday(hoje) + i)
  }

  /** The loop over `dias` of `GET /api/relatorio-semanal`. */
  method ReportDays(mt: R.MealTable, wt: seq<W.AguaRow>, deviceId: string, dias: seq<int>, metas: U.Metas)
    returns (dados: seq<DayReport>)
    ensures dados == Reports(mt, wt, deviceId, dias, metas)
  {
    dados := [];
    for i := 0 to |dias|
      invariant dados == Reports(mt, wt, deviceId, dias[..i], metas)
    {
      ReportsSnoc(mt, wt, deviceId, dias, metas, i);
      dados := dados + [ReportDay(mt, wt, deviceId, dias[i], metas)];
    }
    assert dias[..|dias|] == dias;
  }

  /** The reports of one more day of `dias` end with that day's report. */
  lemma ReportsSnoc(mt: R.MealTable, wt: seq<W.AguaRow>, deviceId: string, dias: seq<int>, metas: U.Metas, i: nat)
    requires i < |dias|
    ensures Reports(mt, wt, deviceId, dias[..i + 1], metas)
            == Reports(mt, wt, deviceId, dias[..i], metas) + [ReportDay(mt, wt, deviceId, dias[i], metas)]
  {
    var pre := dias[..i + 1];
    assert pre[..|pre| - 1] == dias[..i];
    assert pre[|pre| - 1] == dias[i];
  }

  /** The stores `initDatabase` leaves on a fresh database: every table
      empty but the foods, which hold the seed list. */
  method InitialStores(seed: seq<F.FoodSeed>) returns (fs: F.FoodStore, ps: P.ProfileStore, ws: W.WaterStore, ms: R.MealStore, us: U.UserStore)
    ensures fresh(fs) && fresh(ps) && fresh(ws) && fresh(ms) && fresh(us)
    ensures fs.Valid() && ps.Valid() && ws.Valid() && ms.Valid()
    ensures fs.Table() == F.Initialized(F.FoodTable([], 1), seed)
  {
    fs := new F.FoodStore();
    fs.InitializeAlimentos(seed);
    ps := new P.ProfileStore();
    ws := new W.WaterStore();
    ms := new R.MealStore();
    us := new U.UserStore();
  }

  /** The handlers and the stores they share. */
  class Api {
    const foods: F.FoodStore
    const perfis: P.ProfileStore
    const agua: W.WaterStore
    const refeicoes: R.MealStore
    const usuarios: U.UserStore

    ghost predicate Valid()
      reads this, foods, perfis, agua, refeicoes
    {
      foods.Valid() && perfis.Valid() && agua.Valid() && refeicoes.Valid()
    }

    /** Empty stores, then the foods seeded from the server's list. */
    constructor (seed: seq<F.FoodSeed>)
      ensures Valid()
      ensures foods.Table() == F.Initialized(F.FoodTable([], 1), seed)
      ensures fresh(foods) && fresh(perfis) && fresh(agua) && fresh(refeicoes) && fresh(usuarios)
    {
      var fs, ps, ws, ms, us := InitialStores(seed);
      foods, perfis, agua, refeicoes, usuarios := fs, ps, ws, ms, us;
    }

    /** `POST /api/refeicoes`: ensures the user exists, normalises the
        body and stores the meal; responds with its id. */
    method PostRefeicao(deviceId: string, b: MealBody, hoje: int) returns (id: int)
      requires Valid()
      modifies refeicoes, usuarios
      ensures Valid()
      ensures usuarios.Tables() == U.WithUser(old(usuarios.Tables()), deviceId)
      ensures refeicoes.Table() == R.Created(old(refeicoes.Table()), deviceId, NormalizeMeal(b, hoje))
      ensures id == old(refeicoes.nextMealId)
    {
      var _ := usuarios.GetOrCreateUsuario(deviceId);
      var row := refeicoes.CreateRefeicao(deviceId, NormalizeMeal(b, hoje));
      id := row.id;
    }

    /** `GET /api/refeicoes`: the day's meals, formatted. */
    method GetRefeicoes(deviceId: string, data: Option<int>, hoje: int) returns (r: seq<Meal>)
      requires Valid()
      ensures var day := if data.Some? then data.value else hoje;
        r == FormatMeals(R.ByDate(refeicoes.Table(), deviceId, day))
      ensures forall k :: 0 <= k < |r| ==> r[k].calorias == r[k].caloriasTotal
    {
      var day := if data.Some? then data.value else hoje;
      r := FormatMeals(R.ByDate(refeicoes.Table(), deviceId, day));
    }

    /** `DELETE /api/refeicoes/:id`: 404 unless the meal belongs to the device. */
    method DeleteRefeicao(deviceId: string, id: int) returns (r: Result<bool>)
      requires Valid()
      modifies refeicoes
      ensures Valid()
      ensures refeicoes.meals == R.Deleted(old(refeicoes.meals), deviceId, id)
      ensures r.Ok? <==> R.Owned(old(refeicoes.meals), deviceId, id)
      ensures r.Err? ==> r.error == "Refeição não encontrada" && refeicoes.meals == old(refeicoes.meals)
    {
      R.DeleteRemovesIffOwned(refeicoes.meals, deviceId, id);
      var deleted := refeicoes.DeleteRefeicao(deviceId, id);
      r := if deleted then Ok(true) else Err("Refeição não encontrada");
    }

    /** `POST /api/agua`: ensures the user exists, then stores
        `parseInt(quantidade)`; an amount that does not parse is refused
        by the integer column and nothing is stored. */
    method PostAgua(deviceId: string, data: Option<int>, quantidade: Field, hoje: int) returns (r: Result<int>)
      requires Valid()
      modifies agua, usuarios
      ensures Valid()
      ensures usuarios.Tables() == U.WithUser(old(usuarios.Tables()), deviceId)
      ensures IntOf(quantidade).None? ==> r == Err("Erro ao adicionar água") && agua.Table() == old(agua.Table())
      ensures IntOf(quantidade).Some? ==>
        var day := if data.Some? then data.value else hoje;
        agua.Table() == W.Created(old(agua.Table()), deviceId, day, IntOf(quantidade).value)
        && r == Ok(old(agua.nextId))
    {
      var _ := usuarios.GetOrCreateUsuario(deviceId);
      var day := if data.Some? then data.value else hoje;
      var q := IntOf(quantidade);
      if q.None? {
        r := Err("Erro ao adicionar água");
      } else {
        var row := agua.CreateAgua(deviceId, day, q.value);
        r := Ok(row.id);
      }
    }

    /** `DELETE /api/agua/:id`: 404 unless the entry belongs to the device. */
    method DeleteAgua(deviceId: string, id: int) returns (r: Result<bool>)
      requires Valid()
      modifies agua
      ensures Valid()
      ensures agua.rows == W.Deleted(old(agua.rows), deviceId, id)
      ensures r.Ok? <==> W.Owned(old(agua.rows), deviceId, id)
      ensures r.Err? ==> r.error == "Registro não encontrado" && agua.rows == old(agua.rows)
    {
      W.DeleteRemovesIffOwned(agua.rows, deviceId, id);
      var deleted := agua.DeleteAgua(deviceId, id);
      r := if deleted then Ok(true) else Err("Registro não encontrado");
    }

    /** `GET /api/relatorio-semanal`: reads (and lazily creates) the
        goals, then evaluates the seven days from this week's Monday. */
    method WeeklyReport(deviceId: string, hoje: int) returns (dados: seq<DayReport>)
      requires Valid()
      modifies usuarios
      ensures Valid()
      ensures usuarios.Tables() == U.WithMetas(old(usuarios.Tables()), deviceId)
      ensures dados == Reports(refeicoes.Table(), agua.rows, deviceId, Week(hoje), U.MetasOf(old(usuarios.Tables()), deviceId))
    {
      var metas := usuarios.GetMetas(deviceId);
      var dias := WeekDays(hoje);
      assert dias == Week(hoje);
      dados := ReportDays(refeicoes.Table(), agua.rows, deviceId, dias, metas);
    }

    /** `POST /api/perfil`: validates, then ensures the user exists and
        upserts the parsed profile; a rejected body stores nothing. An age
        that does not parse is refused by the integer column, which the
        handler answers with its internal error. */
    method PostPerfil(deviceId: string, b: PerfilBody) returns (r: Result<P.Perfil>)
      requires Valid()
      modifies perfis, usuarios
      ensures Valid()
      ensures ValidatePerfil(b).Err? ==>
        r == ValidatePerfil(b) && perfis.rows == old(perfis.rows) && usuarios.Tables() == old(usuarios.Tables())
      ensures ValidatePerfil(b).Ok? ==> usuarios.Tables() == U.WithUser(old(usuarios.Tables()), deviceId)
      ensures ValidatePerfil(b).Ok? && IntOf(b.idade).None? ==>
        r == Err("Erro interno do servidor ao salvar perfil") && perfis.rows == old(perfis.rows)
      ensures ValidatePerfil(b).Ok? && IntOf(b.idade).Some? ==>
        r == ValidatePerfil(b) && perfis.rows == P.Upserted(old(perfis.rows), deviceId, r.value)
      ensures r.Ok? ==> r.value.idade.Value?
    {
      r := ValidatePerfil(b);
      if r.Ok? {
        var _ := usuarios.GetOrCreateUsuario(deviceId);
        if IntOf(b.idade).None? {
          r := Err("Erro interno do servidor ao salvar perfil");
        } else {
          var stored := perfis.UpsertPerfil(deviceId, r.value);
        }
      }
    }

    /** `POST /api/alimentos`: refuses a name already present up to case;
        otherwise stores the food with `categoria || 'Outros'` and
        `unidade || 'g'`. */
    method PostAlimento(nome: string, calorias: real, categoria: Option<string>, unidade: Option<string>) returns (r: Result<int>)
      requires Valid()
      modifies foods
      ensures Valid()
      ensures F.ByNome(old(foods.foods), nome).Some? <==> r == Err("Alimento já existe")
      ensures r.Err? ==> foods.Table() == old(foods.Table())
      ensures r.Ok? ==> (foods.Table() == F.Created(old(foods.Table()), F.FoodSeed(nome, calorias, OrStr(categoria, "Outros"), Some(OrStr(unidade, "g"))))
                     && r.value == old(foods.nextId))
    {
      if F.ByNome(foods.foods, nome).Some? {
        r := Err("Alimento já existe");
      } else {
        var f := foods.CreateAlimento(F.FoodSeed(nome, calorias, OrStr(categoria, "Outros"), Some(OrStr(unidade, "g"))));
        r := Ok(f.id);
      }
    }

    /** `GET /api/metas`: the stored goals (created lazily), with a 0 goal
        shown as 1600 / 4000. */
    method GetMetas(deviceId: string) returns (m: U.Metas)
      requires Valid()
      modifies usuarios
      ensures Valid()
      ensures usuarios.Tables() == U.WithMetas(old(usuarios.Tables()), deviceId)
      ensures var stored := U.MetasOf(old(usuarios.Tables()), deviceId);
        m == U.Metas(CalorieGoal(stored), WaterGoal(stored))
    {
      var stored := usuarios.GetMetas(deviceId);
      m := U.Metas(CalorieGoal(stored), WaterGoal(stored));
    }

    /** `POST /api/metas`: ensures the user exists, then updates the given
        goals with `parseInt`; an omitted goal keeps its value, and a goal
        that does not parse is refused by the integer column. */
    method PostMetas(deviceId: string, calorias: Field, agua: Field) returns (r: Result<U.Metas>)
      requires Valid()
      modifies usuarios
      ensures Valid()
      ensures var t := U.WithUser(old(usuarios.Tables()), deviceId);
        var c := if calorias.Missing? then None else IntOf(calorias);
        var a := if agua.Missing? then None else IntOf(agua);
        if (!calorias.Missing? && c.None?) || (!agua.Missing? && a.None?) then
          r == Err("Erro ao atualizar metas") && usuarios.Tables() == t
        else
          var u := t.(metas := U.MetasUpdated(t.metas, deviceId, c, a));
          r == Ok(U.MetasOf(u, deviceId)) && usuarios.Tables() == U.WithMetas(u, deviceId)
    {
      var _ := usuarios.GetOrCreateUsuario(deviceId);
      var c := if calorias.Missing? then None else IntOf(calorias);
      var a := if agua.Missing? then None else IntOf(agua);
      if (!calorias.Missing? && c.None?) || (!agua.Missing? && a.None?) {
        r := Err("Erro ao atualizar metas");
      } else {
        var m := usuarios.UpdateMetas(deviceId, c, a);
        r := Ok(m);
      }
    }
  }

  /** After `POST /api/metas` with both goals given, the stored goals are
      the posted ones, and `GET /api/metas` shows them when they are
      non-zero (a 0 goal shows as the default): the device's goals row
      exists by then, whether it was created with the user or read lazily
      before. */
  lemma PostedGoalsAreRead(t: U.UserTables, deviceId: string, c: int, a: int)
    requires deviceId in t.usuarios ==> U.FindMetas(t.metas, deviceId).Some?
    ensures var t1 := U.WithUser(t, deviceId);
      var u := t1.(metas := U.MetasUpdated(t1.metas, deviceId, Some(c), Some(a)));
      var shown := U.MetasOf(U.WithMetas(u, deviceId), deviceId);
      shown == U.Metas(c, a) && CalorieGoal(shown) == (if c != 0 then c else 1600)
      && WaterGoal(shown) == (if a != 0 then a else 4000)
  {
    var t1 := U.WithUser(t, deviceId);
    if deviceId !in t.usuarios {
      if U.FindMetas(t.metas, deviceId).Some? {
        U.FindMetasAppend(t.metas, [U.MetasRow(deviceId, U.DefaultMetas)], deviceId);
      } else {
        U.FindMetasAppendNew(t.metas, U.MetasRow(deviceId, U.DefaultMetas));
      }
    }
    U.UpdateMetasResult(t1, deviceId, Some(c), Some(a), deviceId + "'");
  }

  /** Reading the goals before the user exists leaves two goals rows for
      the device once the user is created: `getOrCreateUsuario` inserts
      its default row without looking at `metas`. */
  lemma GoalsReadBeforeUserGivesTwoRows(deviceId: string)
    ensures var t := U.WithUser(U.WithMetas(U.UserTables([], [], []), deviceId), deviceId);
      |t.metas| == 2 && t.metas[0].deviceId == deviceId && t.metas[1].deviceId == deviceId
  {
  }
}
