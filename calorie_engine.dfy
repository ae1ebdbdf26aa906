/** The server's calorie rules: the Mifflin-St Jeor basal metabolic rate,
    the activity factors, the goal target per objective and its fallback,
    the per-unit calorie conversion, the normalisation of the two meal
    shapes, profile validation, and the weekly report's window and
    per-day flags. */
module CalorieEngine {
  import opened Js
  import opened Text
  import opened Meals
  import FoodRepository
  import ProfileRepository
  import MealRepository
  import UserRepository

  // ---------------------------------------------------------------- BMR

  /** `calcularTMB`: Mifflin-St Jeor, +5 for 'masculino' and -161 for
      any other value, rounded. */
  function Tmb(idade: real, genero: string, altura: real, peso: real): int
  {
    var base := 10.0 * peso + 6.25 * altura - 5.0 * idade;
    Round(if genero == "masculino" then base + 5.0 else base - 161.0)
  }

  /** For the same body, the male rate is exactly 166 above the rate for
      any other `genero`. */
  lemma TmbGenderGap(idade: real, genero: string, altura: real, peso: real)
    requires genero != "masculino"
    ensures Tmb(idade, "masculino", altura, peso) == Tmb(idade, genero, altura, peso) + 166
  {
    var base := 10.0 * peso + 6.25 * altura - 5.0 * idade;
    assert base + 5.0 == (base - 161.0) + 166 as real;
    RoundShift(base - 161.0, 166);
  }

  /** The rate grows with weight and height and falls with age. */
  lemma TmbMonotone(idade: real, idade': real, genero: string, altura: real, altura': real, peso: real, peso': real)
    requires idade' <= idade && altura <= altura' && peso <= peso'
    ensures Tmb(idade, genero, altura, peso) <= Tmb(idade', genero, altura', peso')
  {
    var base := 10.0 * peso + 6.25 * altura - 5.0 * idade;
    var base' := 10.0 * peso' + 6.25 * altura' - 5.0 * idade';
    if genero == "masculino" {
      RoundMonotone(base + 5.0, base' + 5.0);
    } else {
      RoundMonotone(base - 161.0, base' - 161.0);
    }
  }

  /** 30 years, male, 180 cm, 80 kg: 800 + 1125 - 150 + 5 = 1780. */
  lemma TmbExample()
    ensures Tmb(30.0, "masculino", 180.0, 80.0) == 1780
  {
    RoundWhole(1780);
  }

  // ----------------------------------------------------- activity factor

  /** The activity levels from least to most active. */
  const ActivityLevels: seq<string> := ["sedentario", "leve", "moderado", "ativo", "muito_ativo"]

  /** `getFatorAtividade`: the table value, 1.2 for any other key. */
  function ActivityFactor(atividade: string): (r: real)
    ensures 1.2 <= r <= 1.9
    ensures atividade !in ActivityLevels ==> r == 1.2
  {
    if atividade == "sedentario" then 1.2
    else if atividade == "leve" then 1.375
    else if atividade == "moderado" then 1.55
    else if atividade == "ativo" then 1.725
    else if atividade == "muito_ativo" then 1.9
    else 1.2
  }

  /** A more active level has a strictly larger factor. */
  lemma ActivityFactorIncreasing(i: int, j: int)
    requires 0 <= i < j < |ActivityLevels|
    ensures ActivityFactor(ActivityLevels[i]) < ActivityFactor(ActivityLevels[j])
  {
  }

  /** Maintenance calories: the rate times the factor, rounded. */
  function Maintenance(tmb: int, fator: real): int
  {
    Round(tmb as real * fator)
  }

  // ---------------------------------------------------------- goal target

  /** `calcularMetaCalorica`: maintenance minus 500 but at least 1200 to
      lose weight, plus 400 to gain mass, maintenance for 'manutencao'
      and any other objective. */
  function MetaCalorica(tmb: int, fator: real, objetivo: string): (r: int)
    ensures objetivo == "emagrecimento" ==> r >= 1200
  {
    var m := Maintenance(tmb, fator);
    if objetivo == "emagrecimento" then Max(1200, m - 500)
    else if objetivo == "ganho_massa" then m + 400
    else m
  }

  /** How the three objectives relate: gaining is maintenance + 400, and
      losing is 500 below maintenance unless that would go under 1200. */
  lemma MetaObjectivesOrdered(tmb: int, fator: real, other: string)
    requires other != "emagrecimento" && other != "ganho_massa"
    ensures var m := Maintenance(tmb, fator);
      && MetaCalorica(tmb, fator, other) == m
      && MetaCalorica(tmb, fator, "ganho_massa") == m + 400
      && (m >= 1700 ==> MetaCalorica(tmb, fator, "emagrecimento") == m - 500)
      && (m < 1700 ==> MetaCalorica(tmb, fator, "emagrecimento") == 1200)
      && (m >= 1200 ==> MetaCalorica(tmb, fator, "emagrecimento") <= m)
  {
  }

  /** The worked profile: rate 1780, moderate activity, maintenance 2759. */
  lemma MetaExample()
    ensures Maintenance(1780, 1.55) == 2759
    ensures MetaCalorica(1780, 1.55, "manutencao") == 2759
    ensures MetaCalorica(1780, 1.55, "emagrecimento") == 2259
    ensures MetaCalorica(1780, 1.55, "ganho_massa") == 3159
  {
    RoundWhole(2759);
  }

  /** The body of `GET /api/calcular-meta-calorica`. */
  datatype MetaResponse = MetaResponse(meta: int, tmb: int, objetivo: Option<string>, atividade: Option<string>)

  /** `{ meta: 1600, tmb: 0 }`. */
  const MetaFallback := MetaResponse(1600, 0, None, None)

  /** All six profile fields truthy. */
  predicate ProfileComplete(p: ProfileRepository.Perfil)
  {
    Truthy(p.idade) && p.genero != "" && Truthy(p.altura) && Truthy(p.peso) && p.atividade != "" && p.objetivo != ""
  }

  /** `GET /api/calcular-meta-calorica` for the device's stored profile. */
  function MetaEndpoint(perfil: Option<ProfileRepository.Perfil>): (r: MetaResponse)
    ensures perfil.None? || !ProfileComplete(perfil.value) <==> r == MetaFallback
  {
    if perfil.None? || !ProfileComplete(perfil.value) then MetaFallback
    else
      var p := perfil.value;
      var tmb := Tmb(p.idade.v, p.genero, p.altura.v, p.peso.v);
      MetaResponse(MetaCalorica(tmb, ActivityFactor(p.atividade), p.objetivo), tmb, Some(p.objetivo), Some(p.atividade))
  }

  /** With a complete profile the endpoint reports the rate and the goal
      computed from it. */
  lemma MetaEndpointComputes(p: ProfileRepository.Perfil)
    requires ProfileComplete(p)
    ensures var r := MetaEndpoint(Some(p));
      && r.tmb == Tmb(p.idade.v, p.genero, p.altura.v, p.peso.v)
      && r.meta == MetaCalorica(r.tmb, ActivityFactor(p.atividade), p.objetivo)
      && r.objetivo == Some(p.objetivo) && r.atividade == Some(p.atividade)
  {
  }

  // ---------------------------------------------------------- conversion

  /** `POST /api/calcular-calorias`: 404 for an unknown food; a count of
      'unidade' of a food measured in 'g' is 50 g each; every other unit,
      'ml' included, is taken as grams. */
  function ConvertCalories(food: Option<FoodRepository.Food>, quantidade: real, unidade: string): (r: Result<int>)
    ensures food.None? <==> r == Err("Alimento não encontrado")
    ensures food.Some? ==> r.Ok?
  {
    if food.None? then Err("Alimento não encontrado")
    else
      var f := food.value;
      var porGrama := f.caloriasPor100g / 100.0;
      if unidade == "unidade" && f.unidade == "g" then Ok(Round(porGrama * (quantidade * 50.0)))
      else Ok(Round(porGrama * quantidade))
  }

  /** One 'unidade' of a gram-measured food is worth 50 grams. */
  lemma UnitIsFiftyGrams(f: FoodRepository.Food, quantidade: real)
    requires f.unidade == "g"
    ensures ConvertCalories(Some(f), quantidade, "unidade") == ConvertCalories(Some(f), quantidade * 50.0, "g")
  {
  }

  /** Any unit other than 'unidade' on a gram food, and every unit on a
      food not measured in grams, counts as grams. */
  lemma OtherUnitsAreGrams(f: FoodRepository.Food, quantidade: real, unidade: string)
    requires unidade != "unidade" || f.unidade != "g"
    ensures ConvertCalories(Some(f), quantidade, unidade) == ConvertCalories(Some(f), quantidade, "g")
    ensures ConvertCalories(Some(f), quantidade, unidade) == Ok(Round(f.caloriasPor100g / 100.0 * quantidade))
  {
    var porGrama := f.caloriasPor100g / 100.0;
    assert !(unidade == "unidade" && f.unidade == "g");
    var c := ConvertCalories(Some(f), quantidade, unidade);
    assert c.value == Round(porGrama * quantidade);
    assert Round(porGrama * quantidade) == Round(f.caloriasPor100g / 100.0 * quantidade);
  }

  /** More of a food never gives fewer calories. */
  lemma ConvertMonotone(f: FoodRepository.Food, q: real, q': real, unidade: string)
    requires 0.0 <= f.caloriasPor100g && q <= q'
    ensures ConvertCalories(Some(f), q, unidade).value <= ConvertCalories(Some(f), q', unidade).value
  {
    var porGrama := f.caloriasPor100g / 100.0;
    if unidade == "unidade" && f.unidade == "g" {
      assert porGrama * (q * 50.0) <= porGrama * (q' * 50.0);
      RoundMonotone(porGrama * (q * 50.0), porGrama * (q' * 50.0));
    } else {
      assert porGrama * q <= porGrama * q';
      RoundMonotone(porGrama * q, porGrama * q');
    }
  }

  /** Two boiled eggs at 155 kcal per 100 g, counted in units, are 155 kcal. */
  lemma ConvertExample()
    ensures ConvertCalories(Some(FoodRepository.Food(1, "Ovo cozido", 155.0, "Proteínas", "g")), 2.0, "unidade") == Ok(155)
  {
    RoundWhole(155);
  }

  // ------------------------------------------------- meal normalisation

  /** The body of `POST /api/refeicoes`; `itens` is `None` when it is not
      an array. */
  datatype MealBody = MealBody(
    data: Option<int>,
    tipo: string,
    itens: Option<seq<MealRepository.ItemIn>>,
    alimentoId: Option<int>,
    alimentoNome: Option<string>,
    quantidade: Field,
    calorias: Field,
    caloriasTotal: JsNum,
    notas: Option<string>)

  /** `itens.reduce((sum, item) => sum + (item.calorias || 0), 0)`. */
  function ItemsInCalories(xs: seq<MealRepository.ItemIn>): real
  {
    if xs == [] then 0.0 else Or(xs[0].calorias, 0.0) + ItemsInCalories(xs[1..])
  }

  /** The single item of a legacy one-food body. */
  function LegacyItem(b: MealBody): MealRepository.ItemIn
  {
    MealRepository.ItemIn(MealRepository.FoodRef(b.alimentoId), Some(OrStr(b.alimentoNome, "")), None,
                          Value(Or(FloatOf(b.quantidade), 0.0)), Some("g"), Value(Or(FloatOf(b.calorias), 0.0)))
  }

  /** What `POST /api/refeicoes` hands to `createRefeicao`: the date or
      today; an items array is kept as sent with total `calorias_total ||`
      the item sum; otherwise one synthetic item with total
      `parseFloat(calorias) || 0`. */
  function NormalizeMeal(b: MealBody, hoje: int): (r: MealRepository.NewMeal)
    ensures r.data == (if b.data.Some? then b.data.value else hoje) && r.tipo == b.tipo
    ensures r.notas == Some(OrStr(b.notas, "")) && r.itens.Some?
  {
    var data := if b.data.Some? then b.data.value else hoje;
    var notas := Some(OrStr(b.notas, ""));
    if b.itens.Some? then
      var total := if Truthy(b.caloriasTotal) then b.caloriasTotal.v else ItemsInCalories(b.itens.value);
      MealRepository.NewMeal(data, b.tipo, b.itens, Value(total), notas)
    else
      MealRepository.NewMeal(data, b.tipo, Some([LegacyItem(b)]), Value(Or(FloatOf(b.calorias), 0.0)), notas)
  }

  /** An items array, even an empty one, is kept as sent; its total is
      `calorias_total` when truthy and the item sum otherwise, so a total
      of 0 falls back to the sum. */
  lemma NormalizeItemsShape(b: MealBody, hoje: int)
    requires b.itens.Some?
    ensures var r := NormalizeMeal(b, hoje);
      && r.itens == b.itens
      && (Truthy(b.caloriasTotal) ==> r.caloriasTotal == b.caloriasTotal)
      && (!Truthy(b.caloriasTotal) ==> r.caloriasTotal == Value(ItemsInCalories(b.itens.value)))
  {
  }

  /** A legacy body becomes exactly one item in grams, whose calories are
      the meal's total. */
  lemma NormalizeLegacyShape(b: MealBody, hoje: int)
    requires b.itens.None?
    ensures var r := NormalizeMeal(b, hoje);
      && |r.itens.value| == 1
      && r.itens.value[0].unidade == Some("g")
      && r.itens.value[0].alimentoId == MealRepository.FoodRef(b.alimentoId)
      && r.itens.value[0].alimentoNome == Some(OrStr(b.alimentoNome, ""))
      && r.itens.value[0].quantidade == Value(Or(FloatOf(b.quantidade), 0.0))
      && r.itens.value[0].calorias == r.caloriasTotal
      && r.caloriasTotal == Value(Or(FloatOf(b.calorias), 0.0))
  {
  }

  // --------------------------------------------------- profile validation

  /** The body of `POST /api/perfil`. */
  datatype PerfilBody = PerfilBody(
    idade: Field,
    genero: Option<string>,
    altura: Field,
    peso: Field,
    atividade: Option<string>,
    objetivo: Option<string>)

  /** `v === undefined || v === null || v === ''`. */
  predicate Blank(f: Field)
  {
    f.Missing? || f.Null? || f == Text("")
  }

  /** `parseInt(idade)` as a stored number. */
  function IntField(f: Field): JsNum
  {
    var n := IntOf(f);
    if n.Some? then Value(n.value as real) else Absent
  }

  /** The checks of `POST /api/perfil` in order, then the parsed profile. */
  function ValidatePerfil(b: PerfilBody): (r: Result<ProfileRepository.Perfil>)
    ensures r.Ok? <==> !Blank(b.idade) && TruthyStr(b.genero) && !Blank(b.altura) && !Blank(b.peso)
                       && TruthyStr(b.atividade) && TruthyStr(b.objetivo)
    ensures Blank(b.idade) ==> r == Err("Idade é obrigatória")
    ensures !Blank(b.idade) && !TruthyStr(b.genero) ==> r == Err("Gênero é obrigatório")
    ensures !Blank(b.idade) && TruthyStr(b.genero) && Blank(b.altura) ==> r == Err("Altura é obrigatória")
    ensures !Blank(b.idade) && TruthyStr(b.genero) && !Blank(b.altura) && Blank(b.peso) ==> r == Err("Peso é obrigatório")
    ensures !Blank(b.idade) && TruthyStr(b.genero) && !Blank(b.altura) && !Blank(b.peso) && !TruthyStr(b.atividade)
            ==> r == Err("Nível de atividade é obrigatório")
    ensures (!Blank(b.idade) && TruthyStr(b.genero) && !Blank(b.altura) && !Blank(b.peso) && TruthyStr(b.atividade)
             && !TruthyStr(b.objetivo)) ==> r == Err("Objetivo é obrigatório")
    ensures r.Ok? ==> r.value == ProfileRepository.Perfil(IntField(b.idade), b.genero.value, FloatOf(b.altura),
                                                          FloatOf(b.peso), b.atividade.value, b.objetivo.value)
  {
    if Blank(b.idade) then Err("Idade é obrigatória")
    else if !TruthyStr(b.genero) then Err("Gênero é obrigatório")
    else if Blank(b.altura) then Err("Altura é obrigatória")
    else if Blank(b.peso) then Err("Peso é obrigatório")
    else if !TruthyStr(b.atividade) then Err("Nível de atividade é obrigatório")
    else if !TruthyStr(b.objetivo) then Err("Objetivo é obrigatório")
    else Ok(ProfileRepository.Perfil(IntField(b.idade), b.genero.value, FloatOf(b.altura),
                                     FloatOf(b.peso), b.atividade.value, b.objetivo.value))
  }

  /** Validation accepts an age of 0, which the goal endpoint then treats
      as missing, so a saved profile can still get the fallback goal. */
  lemma ZeroAgeAcceptedButIgnored()
    ensures var b := PerfilBody(Number(0.0), Some("masculino"), Number(180.0), Number(80.0), Some("leve"), Some("manutencao"));
      && ValidatePerfil(b).Ok?
      && MetaEndpoint(Some(ValidatePerfil(b).value)) == MetaFallback
  {
  }

  /** A saved profile whose numbers are non-zero numbers gets a computed goal. */
  lemma NumericProfileGetsGoal(b: PerfilBody)
    requires b.idade.Number? && b.altura.Number? && b.peso.Number?
    requires b.idade.x >= 1.0 && b.altura.x != 0.0 && b.peso.x != 0.0
    requires ValidatePerfil(b).Ok?
    ensures MetaEndpoint(Some(ValidatePerfil(b).value)) != MetaFallback
  {
  }

  // -------------------------------------------------------- weekly report

  /** `Date.prototype.getDay` of a day number (day 0 is 1970-01-01, a
      Thursday): 0 is Sunday, 1 Monday, ..., 6 Saturday. */
  function Weekday(d: int): (r: int)
    ensures 0 <= r < 7
  {
    (d + 4) % 7
  }

  /** The Monday of the week containing `hoje`; a Sunday belongs to the
      week that started six days earlier. */
  function Monday(hoje: int): int
  {
    var w := Weekday(hoje);
    hoje - w + (if w == 0 then -6 else 1)
  }

  lemma MondayOfWeek(hoje: int)
    ensures Weekday(Monday(hoje)) == 1
    ensures Monday(hoje) <= hoje <= Monday(hoje) + 6
    ensures Weekday(hoje) == 0 ==> Monday(hoje) == hoje - 6
    ensures Weekday(hoje) == 1 ==> Monday(hoje) == hoje
  {
    var w := Weekday(hoje);
    var m := Monday(hoje);
    if w == 0 {
      assert m + 4 == (hoje + 4) - 7 * 1 + 1;
    } else {
      assert m + 4 == (hoje + 4) - w + 1;
    }
  }

  /** The `dias` loop of `GET /api/relatorio-semanal`: seven consecutive
      dates from the Monday of this week. */
  method WeekDays(hoje: int) returns (dias: seq<int>)
    ensures |dias| == 7
    ensures forall i :: 0 <= i < 7 ==> dias[i] == Monday(hoje) + i
    ensures Weekday(dias[0]) == 1 && dias[0] <= hoje <= dias[6]
  {
    var segunda := Monday(hoje);
    dias := [];
    for i := 0 to 7
      invariant |dias| == i
      invariant forall k :: 0 <= k < i ==> dias[k] == segunda + k
    {
      dias := dias + [segunda + i];
    }
    MondayOfWeek(hoje);
  }

  /** One record of the weekly report. */
  datatype DayReport = DayReport(
    data: int,
    totalCalorias: real,
    totalAgua: int,
    totalRefeicoes: int,
    bateuCalorias: bool,
    bateuAgua: bool,
    bateuAmbas: bool)

  /** The calorie goal the report uses: `metas.calorias || 1600`. */
  function CalorieGoal(m: UserRepository.Metas): (r: int)
    ensures r != 0
  {
    OrInt(m.calorias, 1600)
  }

  /** The water goal the report uses: `metas.agua || 4000`. */
  function WaterGoal(m: UserRepository.Metas): (r: int)
    ensures r != 0
  {
    OrInt(m.agua, 4000)
  }

  /** Calories within 80-100 % of the goal. */
  predicate InCalorieBand(total: real, meta: int)
  {
    0.8 * meta as real <= total <= meta as real
  }

  /** A day of the weekly report from the day's listed meals and water total. */
  function EvaluateDay(data: int, refeicoes: seq<Meal>, totalAgua: int, metas: UserRepository.Metas): (r: DayReport)
    ensures r.data == data && r.totalRefeicoes == |refeicoes|
    ensures r.totalCalorias == ServerDayCalories(refeicoes) && r.totalAgua == totalAgua
    ensures r.bateuCalorias <==> InCalorieBand(r.totalCalorias, CalorieGoal(metas))
    ensures r.bateuAgua <==> totalAgua >= WaterGoal(metas)
    ensures r.bateuAmbas <==> r.bateuCalorias && r.bateuAgua
  {
    var total := ServerDayCalories(refeicoes);
    var cal := InCalorieBand(total, CalorieGoal(metas));
    var agua := totalAgua >= WaterGoal(metas);
    DayReport(data, total, totalAgua, |refeicoes|, cal, agua, cal && agua)
  }

  /** With a positive goal, a day with nothing eaten never meets the calorie goal. */
  lemma EmptyDayMissesCalories(data: int, totalAgua: int, metas: UserRepository.Metas)
    requires CalorieGoal(metas) > 0
    ensures !EvaluateDay(data, [], totalAgua, metas).bateuCalorias
  {
  }

  /** The report's goals default to 1600 kcal and 4000 ml when unset (0). */
  lemma GoalsDefault()
    ensures CalorieGoal(UserRepository.Metas(0, 0)) == 1600 && WaterGoal(UserRepository.Metas(0, 0)) == 4000
    ensures CalorieGoal(UserRepository.DefaultMetas) == 1600 && WaterGoal(UserRepository.DefaultMetas) == 4000
  {
  }
}
