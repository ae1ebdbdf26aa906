/** The statistics page: one calorie and one water entry per day of the
    chosen period, the most eaten foods, the meal count per type, the
    period means and the week-by-week comparison. Day numbers stand for
    the dates of the period. */
module StatisticsPage {
  import opened Js
  import opened Queries
  import opened Meals
  import MealsPage

  /** What the two fetches of one day gave, after their `.catch`
      fallbacks (`[]` and a total of 0). */
  datatype DayData = DayData(refs: seq<Meal>, aguaTotal: int)

  /** `{data, calorias, refeicoes, dataOriginal}`: the day, its total and its meal count. */
  datatype CalEntry = CalEntry(dia: int, calorias: real, refeicoes: nat)

  /** `{data, agua, dataOriginal}`: the day and its water in litres. */
  datatype AguaEntry = AguaEntry(dia: int, agua: real)

  // ------------------------------------------------------------ loading

  /** `todasRefeicoes`: every day's meals, day after day. */
  function AllMeals(results: seq<DayData>): seq<Meal>
  {
    if results == [] then [] else AllMeals(results[..|results| - 1]) + results[|results| - 1].refs
  }

  function CalEntryOf(dia: int, d: DayData): CalEntry
  {
    CalEntry(dia, DayCalories(d.refs), |d.refs|)
  }

  function AguaEntryOf(dia: int, d: DayData): AguaEntry
  {
    AguaEntry(dia, OrInt(d.aguaTotal, 0) as real / 1000.0)
  }

  /** The `dias.forEach` of `loadDados`: the meals of every day in one
      list, and one calorie entry and one water entry per day, in the
      order of the days. */
  method LoadDados(dias: seq<int>, results: seq<DayData>) returns (todas: seq<Meal>, refeicoesData: seq<CalEntry>, aguaData: seq<AguaEntry>)
    requires |dias| == |results|
    ensures todas == AllMeals(results)
    ensures |refeicoesData| == |dias| && |aguaData| == |dias|
    ensures forall k :: 0 <= k < |dias| ==> refeicoesData[k] == CalEntryOf(dias[k], results[k])
    ensures forall k :: 0 <= k < |dias| ==> aguaData[k] == AguaEntryOf(dias[k], results[k])
  {
    todas, refeicoesData, aguaData := [], [], [];
    for i := 0 to |dias|
      invariant todas == AllMeals(results[..i])
      invariant |refeicoesData| == i && |aguaData| == i
      invariant forall k :: 0 <= k < i ==> refeicoesData[k] == CalEntryOf(dias[k], results[k])
      invariant forall k :: 0 <= k < i ==> aguaData[k] == AguaEntryOf(dias[k], results[k])
    {
      var refs := results[i].refs;
      assert results[..i + 1][..i] == results[..i];
      todas := todas + refs;
      refeicoesData := refeicoesData + [CalEntry(dias[i], DayCalories(refs), |refs|)];
      aguaData := aguaData + [AguaEntry(dias[i], OrInt(results[i].aguaTotal, 0) as real / 1000.0)];
    }
    assert results[..|dias|] == results;
  }

  /** The entries' calories, added up from the last. */
  function SumCal(es: seq<CalEntry>): real
  {
    if es == [] then 0.0 else SumCal(es[..|es| - 1]) + es[|es| - 1].calorias
  }

  function SumAgua(es: seq<AguaEntry>): real
  {
    if es == [] then 0.0 else SumAgua(es[..|es| - 1]) + es[|es| - 1].agua
  }

  /** The calories of all the period's meals are the sum of the per-day
      entries: no meal is lost or counted twice between the two views. */
  lemma {:induction false} AllMealsAreTheDays(dias: seq<int>, results: seq<DayData>, es: seq<CalEntry>)
    requires |dias| == |results| == |es|
    requires forall k :: 0 <= k < |es| ==> es[k] == CalEntryOf(dias[k], results[k])
    ensures DayCalories(AllMeals(results)) == SumCal(es)
  {
    if results != [] {
      var n := |results| - 1;
      AllMealsAreTheDays(dias[..n], results[..n], es[..n]);
      DayCaloriesAppend(AllMeals(results[..n]), results[n].refs);
    }
  }

  // ------------------------------------------------------- means

  ghost predicate CaloriesBetween(es: seq<CalEntry>, lo: real, hi: real)
  {
    forall k :: 0 <= k < |es| ==> lo <= es[k].calorias <= hi
  }

  lemma {:induction false} SumCalBounds(es: seq<CalEntry>, lo: real, hi: real)
    requires CaloriesBetween(es, lo, hi)
    ensures |es| as real * lo <= SumCal(es) <= |es| as real * hi
  {
    if es != [] {
      var n := |es| - 1;
      assert CaloriesBetween(es[..n], lo, hi);
      SumCalBounds(es[..n], lo, hi);
      assert |es| as real * lo == n as real * lo + lo;
      assert |es| as real * hi == n as real * hi + hi;
    }
  }

  /** The cards of `calcularMedias`. */
  datatype Medias = Medias(calorias: int, agua: real, refeicoes: real)

  /** `dias = agua.length || 1`: the number of days, never zero. */
  function Dias(agua: seq<AguaEntry>): (r: nat)
    ensures r >= 1
    ensures |agua| > 0 ==> r == |agua|
  {
    OrInt(|agua|, 1)
  }

  /** Mean calories per day (rounded), mean water and mean meals. */
  function CalcularMedias(todas: seq<Meal>, agua: seq<AguaEntry>): Medias
  {
    var dias := Dias(agua) as real;
    Medias(Round(DayCalories(todas) / dias), SumAgua(agua) / dias, |todas| as real / dias)
  }

  /** The rounded mean of a period whose total is the sum of its days'
      entries lies between the roundings of the daily bounds. */
  lemma {:induction false} MeanOfDays(todas: seq<Meal>, agua: seq<AguaEntry>, es: seq<CalEntry>, lo: real, hi: real)
    requires |es| == |agua| > 0 && DayCalories(todas) == SumCal(es)
    requires CaloriesBetween(es, lo, hi)
    ensures Round(lo) <= CalcularMedias(todas, agua).calorias <= Round(hi)
  {
    var mean := SumCal(es) / |es| as real;
    assert Dias(agua) == |es|;
    assert CalcularMedias(todas, agua).calorias == Round(mean);
    SumCalBounds(es, lo, hi);
    MeanBounds(SumCal(es), |es|, lo, hi);
    RoundMonotone(lo, mean);
    RoundMonotone(mean, hi);
  }

  /** With every day of the period between `lo` and `hi` kilocalories,
      the mean shown lies between their roundings; an empty period shows 0. */
  lemma {:induction false} MediasWithinDailyBounds(dias: seq<int>, results: seq<DayData>, es: seq<CalEntry>, agua: seq<AguaEntry>, lo: real, hi: real)
    requires |dias| == |results| == |es| == |agua|
    requires forall k :: 0 <= k < |es| ==> es[k] == CalEntryOf(dias[k], results[k])
    requires CaloriesBetween(es, lo, hi)
    ensures |es| > 0 ==> Round(lo) <= CalcularMedias(AllMeals(results), agua).calorias <= Round(hi)
    ensures |es| == 0 ==> CalcularMedias(AllMeals(results), agua).calorias == 0
  {
    AllMealsAreTheDays(dias, results, es);
    if |es| > 0 {
      MeanOfDays(AllMeals(results), agua, es, lo, hi);
    } else {
      assert results == [] && agua == [];
      assert AllMeals(results) == [];
      assert CalcularMedias(AllMeals(results), agua).calorias == Round(0.0 / 1.0);
    }
  }

  // ------------------------------------------------------- top foods

  /** `{ nome, vezes, totalCalorias }` of one food. */
  datatype FoodCount = FoodCount(nome: string, vezes: nat, totalCalorias: real)

  /** The `alimentos` dictionary: its keys in insertion order and its entries. */
  datatype Tally = Tally(order: seq<string>, entries: map<string, FoodCount>)

  /** Every item of the listed meals, meal after meal. */
  function AllItems(refs: seq<Meal>): seq<Item>
  {
    if refs == [] then [] else AllItems(refs[..|refs| - 1]) + refs[|refs| - 1].itens
  }

  /** How many items carry the name, and their calories (`|| 0`) added up. */
  function Count(items: seq<Item>, nome: string): nat
  {
    if items == [] then 0
    else Count(items[..|items| - 1], nome) + (if items[|items| - 1].alimentoNome == nome then 1 else 0)
  }

  function CaloriesOf(items: seq<Item>, nome: string): real
  {
    if items == [] then 0.0
    else CaloriesOf(items[..|items| - 1], nome) + (if items[|items| - 1].alimentoNome == nome then Or(items[|items| - 1].calorias, 0.0) else 0.0)
  }

  /** One item counted: a new name gets a zeroed entry at the end, then
      the entry's count goes up by one and its calories by the item's. */
  function Step(t: Tally, item: Item): Tally
  {
    var nome := item.alimentoNome;
    var t1 := if nome in t.entries then t else Tally(t.order + [nome], t.entries[nome := FoodCount(nome, 0, 0.0)]);
    var e := t1.entries[nome];
    Tally(t1.order, t1.entries[nome := FoodCount(e.nome, e.vezes + 1, e.totalCalorias + Or(item.calorias, 0.0))])
  }

  /** The dictionary after counting `items` into `t`. */
  function TallyAfter(t: Tally, items: seq<Item>): Tally
  {
    if items == [] then t else Step(TallyAfter(t, items[..|items| - 1]), items[|items| - 1])
  }

  /** The dictionary after counting `items` into an empty one. */
  function Tallied(items: seq<Item>): Tally
  {
    TallyAfter(Tally([], map[]), items)
  }

  /** Counting two lists one after the other counts their concatenation. */
  lemma {:induction false} TallyAfterAppend(t: Tally, a: seq<Item>, b: seq<Item>)
    ensures TallyAfter(t, a + b) == TallyAfter(TallyAfter(t, a), b)
  {
    if b == [] {
      assert a + b == a;
    } else {
      var n := |b| - 1;
      TallyAfterAppend(t, a, b[..n]);
      assert (a + b)[..|a + b| - 1] == a + b[..n];
    }
  }

  /** The dictionary holds exactly the names that occur, each with its
      count and calories, and lists each of them once. */
  ghost predicate Describes(t: Tally, items: seq<Item>)
  {
    && (forall n :: n in t.entries <==> Count(items, n) > 0)
    && (forall n :: n in t.entries ==> t.entries[n] == FoodCount(n, Count(items, n), CaloriesOf(items, n)))
    && (forall n :: n in t.order <==> n in t.entries)
    && (forall i, j :: 0 <= i < j < |t.order| ==> t.order[i] != t.order[j])
  }

  lemma {:induction false} TalliedDescribes(items: seq<Item>)
    ensures Describes(Tallied(items), items)
  {
    if items != [] {
      var pre, x := items[..|items| - 1], items[|items| - 1];
      TalliedDescribes(pre);
      assert items == pre + [x];
      StepDescribes(Tallied(pre), pre, x);
    }
  }

  /** Counting one more item keeps the dictionary describing the items. */
  lemma StepDescribes(t: Tally, pre: seq<Item>, x: Item)
    requires Describes(t, pre)
    ensures Describes(Step(t, x), pre + [x])
  {
    StepEntries(t, pre, x);
    StepOrder(t, pre, x);
  }

  lemma StepEntries(t: Tally, pre: seq<Item>, x: Item)
    requires Describes(t, pre)
    ensures var u, items := Step(t, x), pre + [x];
      && (forall n :: n in u.entries <==> Count(items, n) > 0)
      && (forall n :: n in u.entries ==> u.entries[n] == FoodCount(n, Count(items, n), CaloriesOf(items, n)))
  {
    var items := pre + [x];
    assert items[..|items| - 1] == pre;
    if x.alimentoNome !in t.entries {
      CountZeroNoCalories(pre, x.alimentoNome);
    }
  }

  lemma StepOrder(t: Tally, pre: seq<Item>, x: Item)
    requires Describes(t, pre)
    ensures var u := Step(t, x);
      && (forall n :: n in u.order <==> n in u.entries)
      && (forall i, j :: 0 <= i < j < |u.order| ==> u.order[i] != u.order[j])
  {
    if x.alimentoNome !in t.entries {
      forall i | 0 <= i < |t.order|
        ensures t.order[i] != x.alimentoNome
      {
        assert t.order[i] in t.order;
      }
    }
  }

  lemma {:induction false} CountZeroNoCalories(items: seq<Item>, nome: string)
    requires Count(items, nome) == 0
    ensures CaloriesOf(items, nome) == 0.0
  {
    if items != [] {
      CountZeroNoCalories(items[..|items| - 1], nome);
    }
  }

  /** `Object.values(alimentos)`. */
  function Values(t: Tally): (r: seq<FoodCount>)
    requires forall n :: n in t.order ==> n in t.entries
    ensures |r| == |t.order| && forall k :: 0 <= k < |r| ==> r[k] == t.entries[t.order[k]]
  {
    seq(|t.order|, k requires 0 <= k < |t.order| => t.entries[t.order[k]])
  }

  /** The comparator `(a, b) => b.vezes - a.vezes`. */
  predicate MoreFrequent(a: FoodCount, b: FoodCount)
  {
    a.vezes >= b.vezes
  }

  lemma MoreFrequentTotal()
    ensures TotalPreorder(MoreFrequent)
  {
  }

  /** A tally's foods, most eaten first, ten at most. */
  function TakeTop(t: Tally): seq<FoodCount>
    requires forall n :: n in t.order ==> n in t.entries
  {
    MoreFrequentTotal();
    Take(Sort(Values(t), MoreFrequent), 10)
  }

  /** The ten most eaten foods, as the page computes them. */
  function TopTen(items: seq<Item>): seq<FoodCount>
  {
    TalliedDescribes(items);
    TakeTop(Tallied(items))
  }

  lemma AllItemsSnoc(refs: seq<Meal>, i: nat)
    requires i < |refs|
    ensures AllItems(refs[..i + 1]) == AllItems(refs[..i]) + refs[i].itens
  {
    assert refs[..i + 1][..i] == refs[..i];
  }

  /** The inner `forEach` of `alimentosMaisConsumidos`: each item's name
      gets a zeroed entry the first time it is seen, then its count goes
      up by one and its calories by the item's. */
  method CountItems(t: Tally, itens: seq<Item>) returns (r: Tally)
    ensures r == TallyAfter(t, itens)
  {
    var order, alimentos := t.order, t.entries;
    for j := 0 to |itens|
      invariant Tally(order, alimentos) == TallyAfter(t, itens[..j])
    {
      var item := itens[j];
      var nome := item.alimentoNome;
      if nome !in alimentos {
        alimentos := alimentos[nome := FoodCount(nome, 0, 0.0)];
        order := order + [nome];
      }
      var e := alimentos[nome];
      alimentos := alimentos[nome := FoodCount(e.nome, e.vezes + 1, e.totalCalorias + Or(item.calorias, 0.0))];
      assert itens[..j + 1][..j] == itens[..j];
    }
    assert itens[..|itens|] == itens;
    r := Tally(order, alimentos);
  }

  /** `alimentosMaisConsumidos`: counts every item of every meal that has
      items, then sorts by count and keeps ten. */
  method AlimentosMaisConsumidos(refeicoes: seq<Meal>) returns (r: seq<FoodCount>)
    ensures r == TopTen(AllItems(refeicoes))
  {
    var alimentos := Tally([], map[]);
    for i := 0 to |refeicoes|
      invariant alimentos == Tallied(AllItems(refeicoes[..i]))
    {
      var itens := refeicoes[i].itens;
      AllItemsSnoc(refeicoes, i);
      TallyAfterAppend(Tally([], map[]), AllItems(refeicoes[..i]), itens);
      if |itens| > 0 {
        alimentos := CountItems(alimentos, itens);
      }
    }
    assert refeicoes[..|refeicoes|] == refeicoes;
    TalliedDescribes(AllItems(refeicoes));
    r := TakeTop(alimentos);
  }

  /** At most ten entries, most eaten first. */
  lemma TopTenShape(items: seq<Item>)
    ensures |TopTen(items)| <= 10
    ensures Sorted(TopTen(items), MoreFrequent)
  {
    TalliedDescribes(items);
    MoreFrequentTotal();
    var s := Sort(Values(Tallied(items)), MoreFrequent);
    assert TopTen(items) == Take(s, 10);
  }

  /** Each entry shown is a food that occurs, with its true count and calories. */
  lemma TopTenEntry(items: seq<Item>, e: FoodCount)
    requires e in TopTen(items)
    ensures Count(items, e.nome) > 0 && e == FoodCount(e.nome, Count(items, e.nome), CaloriesOf(items, e.nome))
  {
    TalliedDescribes(items);
    MoreFrequentTotal();
    var t := Tallied(items);
    var vs := Values(t);
    var s := Sort(vs, MoreFrequent);
    assert e in s;
    assert e in multiset(vs);
    var k :| 0 <= k < |vs| && vs[k] == e;
    assert t.order[k] in t.entries;
  }

  /** A food that occurs but is not shown occurs no more often than any
      food shown, and then ten are shown. */
  lemma TopTenComplete(items: seq<Item>, n: string)
    requires Count(items, n) > 0 && forall e :: e in TopTen(items) ==> e.nome != n
    ensures |TopTen(items)| == 10 && forall e :: e in TopTen(items) ==> e.vezes >= Count(items, n)
  {
    TalliedDescribes(items);
    MoreFrequentTotal();
    var t := Tallied(items);
    var vs := Values(t);
    var s := Sort(vs, MoreFrequent);
    var k :| 0 <= k < |t.order| && t.order[k] == n;
    var x := vs[k];
    assert x.nome == n && x.vezes == Count(items, n);
    assert x in multiset(s);
    TakeSortedLeavesOut(s, MoreFrequent, 10, x);
  }

  // ------------------------------------------------------- meal types

  /** The keys of `horariosPreferidos`, in their order. */
  const HorarioNomes: seq<string> := ["Café da Manhã", "Almoço", "Café da Tarde", "Jantar", "Jejum"]

  /** The types the meal form stores, in the same order. */
  const StoredTipos: seq<string> := ["café da manhã", "almoço", "café da tarde", "jantar", "jejum"]

  datatype Horario = Horario(nome: string, valor: nat)

  /** The `horarios` dictionary filled by the `forEach`: `tipo || 'Outro'`
      is counted when it is one of the keys, which neither the empty
      string nor 'Outro' is. */
  method CountByKeys(keys: seq<string>, refeicoes: seq<Meal>) returns (valores: seq<nat>)
    requires "" !in keys && "Outro" !in keys
    ensures |valores| == |keys|
    ensures forall k :: 0 <= k < |keys| ==> valores[k] == CountTipo(refeicoes, keys[k])
  {
    var horarios: map<string, nat> := map k | k in keys :: 0;
    for i := 0 to |refeicoes|
      invariant forall k :: k in horarios <==> k in keys
      invariant forall k :: k in horarios ==> horarios[k] == CountTipo(refeicoes[..i], k)
    {
      var r := refeicoes[i];
      var tipo := if r.tipo != "" then r.tipo else "Outro";
      if tipo in horarios {
        horarios := horarios[tipo := horarios[tipo] + 1];
      }
      assert refeicoes[..i + 1] == refeicoes[..i] + [r];
      forall k | k in horarios
        ensures horarios[k] == CountTipo(refeicoes[..i + 1], k)
      {
        CountTipoAppend(refeicoes[..i], r, k);
      }
    }
    assert refeicoes[..|refeicoes|] == refeicoes;
    valores := seq(|keys|, k requires 0 <= k < |keys| => horarios[keys[k]]);
  }

  lemma NomesAreKeys()
    ensures "" !in HorarioNomes && "Outro" !in HorarioNomes && Distinct(HorarioNomes)
    ensures "" !in StoredTipos && "Outro" !in StoredTipos && Distinct(StoredTipos)
    ensures forall k, j :: 0 <= k < |HorarioNomes| && 0 <= j < |StoredTipos| ==> HorarioNomes[k] != StoredTipos[j]
    ensures forall x :: x in MealsPage.TiposRefeicao <==> x in StoredTipos
  {
    var h, t := HorarioNomes, StoredTipos;
    assert h[0][0] == 'C' && h[1][0] == 'A' && h[2][0] == 'C' && h[3][0] == 'J' && h[4][0] == 'J';
    assert t[0][0] == 'c' && t[1][0] == 'a' && t[2][0] == 'c' && t[3][0] == 'j' && t[4][0] == 'j';
    assert h[0][8] == 'M' && h[2][8] == 'T' && h[3][1] == 'a' && h[4][1] == 'e';
    assert t[0][8] == 'm' && t[2][8] == 't' && t[3][1] == 'a' && t[4][1] == 'e';
    assert |h[0]| > 0 && |h[1]| > 0 && |h[2]| > 0 && |h[3]| > 0 && |h[4]| > 0;
    assert |t[0]| > 0 && |t[1]| > 0 && |t[2]| > 0 && |t[3]| > 0 && |t[4]| > 0;
  }

  function Labelled(valores: seq<nat>): (r: seq<Horario>)
    requires |valores| == |HorarioNomes|
    ensures |r| == |HorarioNomes| && forall k :: 0 <= k < |r| ==> r[k] == Horario(HorarioNomes[k], valores[k])
  {
    seq(|HorarioNomes|, k requires 0 <= k < |HorarioNomes| => Horario(HorarioNomes[k], valores[k]))
  }

  /** `horariosPreferidos` as written: five entries in key order, each
      counting the meals whose type is exactly the capitalised key. */
  method HorariosPreferidos(refeicoes: seq<Meal>) returns (r: seq<Horario>)
    ensures |r| == 5
    ensures forall k :: 0 <= k < 5 ==> r[k] == Horario(HorarioNomes[k], CountTipo(refeicoes, HorarioNomes[k]))
  {
    NomesAreKeys();
    var valores := CountByKeys(HorarioNomes, refeicoes);
    r := Labelled(valores);
  }

  function SumValores(r: seq<Horario>): nat
  {
    if r == [] then 0 else r[0].valor + SumValores(r[1..])
  }

  lemma {:induction false} SumValoresIsSumCounts(r: seq<Horario>, keys: seq<string>, refeicoes: seq<Meal>)
    requires |r| == |keys| && forall k :: 0 <= k < |r| ==> r[k].valor == CountTipo(refeicoes, keys[k])
    ensures SumValores(r) == SumCounts(refeicoes, keys)
  {
    if r != [] {
      SumValoresIsSumCounts(r[1..], keys[1..], refeicoes);
    }
  }

  /** As written the counts still add up to at most the number of meals. */
  lemma HorariosBounded(refeicoes: seq<Meal>, r: seq<Horario>)
    requires |r| == 5 && forall k :: 0 <= k < 5 ==> r[k] == Horario(HorarioNomes[k], CountTipo(refeicoes, HorarioNomes[k]))
    ensures SumValores(r) <= |refeicoes|
  {
    NomesAreKeys();
    SumValoresIsSumCounts(r, HorarioNomes, refeicoes);
    CountsPartition(refeicoes, HorarioNomes);
  }

  /** As written no meal saved by the meal form is ever counted: the form
      stores lower-case types and the keys are capitalised. */
  lemma HorariosMissStoredTypes(refeicoes: seq<Meal>)
    requires forall m :: m in refeicoes ==> m.tipo in MealsPage.TiposRefeicao
    ensures forall k :: 0 <= k < 5 ==> CountTipo(refeicoes, HorarioNomes[k]) == 0
  {
    NomesAreKeys();
    forall k | 0 <= k < 5
      ensures CountTipo(refeicoes, HorarioNomes[k]) == 0
    {
      forall m | m in refeicoes
        ensures m.tipo != HorarioNomes[k]
      {
        assert m.tipo in StoredTipos;
        var j :| 0 <= j < |StoredTipos| && StoredTipos[j] == m.tipo;
      }
      CountAbsentTipo(refeicoes, HorarioNomes[k]);
    }
  }

  /** `horariosPreferidos` keyed by the stored types and labelled with
      the capitalised names. */
  method HorariosPreferidosCorrected(refeicoes: seq<Meal>) returns (r: seq<Horario>)
    ensures |r| == 5
    ensures forall k :: 0 <= k < 5 ==> r[k] == Horario(HorarioNomes[k], CountTipo(refeicoes, StoredTipos[k]))
  {
    NomesAreKeys();
    var valores := CountByKeys(StoredTipos, refeicoes);
    r := Labelled(valores);
  }

  /** Corrected, every meal saved by the form is counted exactly once. */
  lemma HorariosCountEverySavedMeal(refeicoes: seq<Meal>, r: seq<Horario>)
    requires |r| == 5 && forall k :: 0 <= k < 5 ==> r[k] == Horario(HorarioNomes[k], CountTipo(refeicoes, StoredTipos[k]))
    requires forall m :: m in refeicoes ==> m.tipo in MealsPage.TiposRefeicao
    ensures SumValores(r) == |refeicoes|
  {
    NomesAreKeys();
    SumValoresIsSumCounts(r, StoredTipos, refeicoes);
    CountsPartition(refeicoes, StoredTipos);
    UncountedNone(refeicoes, StoredTipos);
  }

  // ------------------------------------------------------- weeks

  /** One bar of the comparison: week number, mean calories, mean water. */
  datatype Semana = Semana(numero: nat, calorias: int, agua: real)

  /** `Math.min(4, Math.ceil(n / 7))`. */
  function WeekCount(n: nat): (r: nat)
    ensures r <= 4 && (n > 0 ==> r >= 1)
    ensures forall i :: 0 <= i < r ==> 7 * i < n
  {
    Min(4, (n + 6) / 7)
  }

  /** `Math.min((i + 1) * 7, n)`, the end of week `i`. */
  function WeekEnd(i: nat, n: nat): (r: nat)
    requires 7 * i < n
    ensures 7 * i < r <= n && r - 7 * i <= 7
  {
    Min((i + 1) * 7, n)
  }

  function MeanAgua(es: seq<AguaEntry>): real
    requires |es| > 0
  {
    SumAgua(es) / |es| as real
  }

  function MeanCal(es: seq<CalEntry>): real
    requires |es| > 0
  {
    SumCal(es) / |es| as real
  }

  /** The inner loop of `comparacaoSemanas` over the water entries of one week. */
  method WeekAgua(agua: seq<AguaEntry>, inicio: nat, fim: nat) returns (totalAgua: real)
    requires inicio <= fim <= |agua|
    ensures totalAgua == SumAgua(agua[inicio..fim])
  {
    totalAgua := 0.0;
    for j := inicio to fim
      invariant totalAgua == SumAgua(agua[inicio..j])
    {
      assert agua[inicio..j + 1][..j - inicio] == agua[inicio..j];
      totalAgua := totalAgua + agua[j].agua;
    }
  }

  /** The same over the calorie entries, as the corrected loop adds them. */
  method WeekCal(evolucao: seq<CalEntry>, inicio: nat, fim: nat) returns (totalCal: real)
    requires inicio <= fim <= |evolucao|
    ensures totalCal == SumCal(evolucao[inicio..fim])
  {
    totalCal := 0.0;
    for j := inicio to fim
      invariant totalCal == SumCal(evolucao[inicio..j])
    {
      assert evolucao[inicio..j + 1][..j - inicio] == evolucao[inicio..j];
      totalCal := totalCal + evolucao[j].calorias;
    }
  }

  /** `comparacaoSemanas` as written: up to four weeks of the three-month
      period, each with its mean water; the calorie accumulator is
      never added to, so every week shows 0 kcal. */
  method ComparacaoSemanas(periodo: string, agua: seq<AguaEntry>) returns (semanas: seq<Semana>)
    ensures periodo != "mes3" || |agua| == 0 ==> semanas == []
    ensures periodo == "mes3" && |agua| > 0 ==> |semanas| == WeekCount(|agua|)
    ensures forall i :: 0 <= i < |semanas| ==>
      (7 * i < |agua| && semanas[i] == Semana(i + 1, 0, MeanAgua(agua[7 * i..WeekEnd(i, |agua|)])))
  {
    semanas := [];
    if periodo == "mes3" && |agua| > 0 {
      var n := |agua|;
      for i := 0 to WeekCount(n)
        invariant |semanas| == i
        invariant forall k :: 0 <= k < i ==> 7 * k < n && semanas[k] == Semana(k + 1, 0, MeanAgua(agua[7 * k..WeekEnd(k, n)]))
      {
        var inicio := i * 7;
        var fim := Min((i + 1) * 7, n);
        var totalCal := 0.0;
        var totalAgua := WeekAgua(agua, inicio, fim);
        assert Round(totalCal / (fim - inicio) as real) == 0;
        semanas := semanas + [Semana(i + 1, Round(totalCal / (fim - inicio) as real), totalAgua / (fim - inicio) as real)];
      }
    }
  }

  /** `comparacaoSemanas` with the calorie accumulator filled from the
      per-day calorie entries of the same days. */
  method ComparacaoSemanasCorrected(periodo: string, evolucao: seq<CalEntry>, agua: seq<AguaEntry>) returns (semanas: seq<Semana>)
    requires |evolucao| == |agua|
    ensures periodo != "mes3" || |agua| == 0 ==> semanas == []
    ensures periodo == "mes3" && |agua| > 0 ==> |semanas| == WeekCount(|agua|)
    ensures forall i :: 0 <= i < |semanas| ==>
      (7 * i < |agua| && semanas[i] == Semana(i + 1, Round(MeanCal(evolucao[7 * i..WeekEnd(i, |agua|)])), MeanAgua(agua[7 * i..WeekEnd(i, |agua|)])))
  {
    semanas := [];
    if periodo == "mes3" && |agua| > 0 {
      var n := |agua|;
      for i := 0 to WeekCount(n)
        invariant |semanas| == i
        invariant forall k :: 0 <= k < i ==>
          (7 * k < n && semanas[k] == Semana(k + 1, Round(MeanCal(evolucao[7 * k..WeekEnd(k, n)])), MeanAgua(agua[7 * k..WeekEnd(k, n)])))
      {
        var inicio := i * 7;
        var fim := Min((i + 1) * 7, n);
        var totalCal := WeekCal(evolucao, inicio, fim);
        var totalAgua := WeekAgua(agua, inicio, fim);
        semanas := semanas + [Semana(i + 1, Round(totalCal / (fim - inicio) as real), totalAgua / (fim - inicio) as real)];
      }
    }
  }

  /** Corrected, a week whose days all lie between `lo` and `hi`
      kilocalories shows a mean between their roundings. */
  lemma WeekMeanWithinBounds(es: seq<CalEntry>, lo: real, hi: real)
    requires |es| > 0 && CaloriesBetween(es, lo, hi)
    ensures Round(lo) <= Round(MeanCal(es)) <= Round(hi)
  {
    SumCalBounds(es, lo, hi);
    MeanBounds(SumCal(es), |es|, lo, hi);
    RoundMonotone(lo, MeanCal(es));
    RoundMonotone(MeanCal(es), hi);
  }

  /** A week in which every day has at least one kilocalorie: the
      corrected comparison shows a positive mean, the one as written 0. */
  lemma WeekCaloriesLost(es: seq<CalEntry>, hi: real)
    requires |es| > 0 && CaloriesBetween(es, 1.0, hi)
    ensures Round(MeanCal(es)) >= 1
  {
    WeekMeanWithinBounds(es, 1.0, hi);
    RoundWhole(1);
  }
}
