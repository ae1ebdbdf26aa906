/** The meal records shared by the server and the pages, and the one
    per-meal / per-day calorie rule they all use: a meal with items is
    worth the sum of its items' `calorias`, a meal without items is worth
    its stored `calorias_total`. */
module Meals {
  import opened Js

  /** One line item of a meal, as the meal listing returns it. */
  datatype Item = Item(
    id: int,
    alimentoId: Option<int>,
    alimentoNome: string,
    quantidade: real,
    unidade: string,
    calorias: JsNum)

  /** A meal as the store lists it (with `calorias` absent) and as the
      pages receive it from `GET /api/refeicoes` (with `calorias` a copy
      of `calorias_total`). Dates are day numbers. */
  datatype Meal = Meal(
    id: int,
    data: int,
    tipo: string,
    itens: seq<Item>,
    caloriasTotal: JsNum,
    calorias: JsNum,
    timestamp: int,
    notas: string)

  /** `itens.reduce((s, item) => s + (item.calorias || 0), 0)`. */
  function ItemsCalories(itens: seq<Item>): real
  {
    if itens == [] then 0.0 else Or(itens[0].calorias, 0.0) + ItemsCalories(itens[1..])
  }

  /** The pages' per-meal rule: the item sum when there are items,
      otherwise `calorias_total || calorias || 0`. */
  function MealCalories(m: Meal): real
  {
    if |m.itens| > 0 then ItemsCalories(m.itens) else Or(m.caloriasTotal, Or(m.calorias, 0.0))
  }

  /** The pages' daily total: the sum of `MealCalories` over the day's meals. */
  function DayCalories(ms: seq<Meal>): real
  {
    if ms == [] then 0.0 else MealCalories(ms[0]) + DayCalories(ms[1..])
  }

  /** The weekly report's per-meal rule: the item sum when there are
      items, otherwise `parseFloat(calorias_total) || 0`; it never looks
      at `calorias`. */
  function ServerMealCalories(m: Meal): real
  {
    if |m.itens| > 0 then ItemsCalories(m.itens) else Or(m.caloriasTotal, 0.0)
  }

  function ServerDayCalories(ms: seq<Meal>): real
  {
    if ms == [] then 0.0 else ServerMealCalories(ms[0]) + ServerDayCalories(ms[1..])
  }

  /** `itens.reduce((sum, item) => sum + item.calorias, 0)` without the
      `|| 0` guard: one missing value makes the sum `NaN` (`None`). */
  function RawItemsSum(itens: seq<Item>): Option<real>
  {
    if itens == [] then Some(0.0)
    else if itens[0].calorias.Absent? then None
    else match RawItemsSum(itens[1..])
      case None => None
      case Some(rest) => Some(itens[0].calorias.v + rest)
  }

  /** The two per-meal rules agree on every record whose `calorias`
      equals its `calorias_total`. */
  lemma MealRulesAgree(m: Meal)
    requires m.calorias == m.caloriasTotal
    ensures ServerMealCalories(m) == MealCalories(m)
  {
  }

  /** The server's and the pages' daily totals agree on every list of
      records whose `calorias` equals `calorias_total`, which is what
      the listing handler sends. */
  lemma {:induction false} DayRulesAgree(ms: seq<Meal>)
    requires forall i :: 0 <= i < |ms| ==> ms[i].calorias == ms[i].caloriasTotal
    ensures ServerDayCalories(ms) == DayCalories(ms)
  {
    if ms != [] {
      MealRulesAgree(ms[0]);
      DayRulesAgree(ms[1..]);
    }
  }

  /** The daily total of two lists of meals is the sum of their totals,
      so it does not depend on how a day's meals are split or grouped. */
  lemma {:induction false} DayCaloriesAppend(a: seq<Meal>, b: seq<Meal>)
    ensures DayCalories(a + b) == DayCalories(a) + DayCalories(b)
  {
    if a == [] {
      assert a + b == b;
    } else {
      assert (a + b)[0] == a[0] && (a + b)[1..] == a[1..] + b;
      DayCaloriesAppend(a[1..], b);
    }
  }

  /** The daily total does not depend on the order in which the meals
      are listed (the store lists them newest first). */
  lemma {:induction false} DayCaloriesReverse(ms: seq<Meal>)
    ensures DayCalories(Reverse(ms)) == DayCalories(ms)
  {
    if ms != [] {
      assert Reverse(ms) == Reverse(ms[1..]) + [ms[0]];
      DayCaloriesAppend(Reverse(ms[1..]), [ms[0]]);
      DayCaloriesReverse(ms[1..]);
    }
  }

  function Reverse<T>(s: seq<T>): (r: seq<T>)
    ensures |r| == |s|
    ensures forall i :: 0 <= i < |s| ==> r[i] == s[|s| - 1 - i]
  {
    if s == [] then [] else Reverse(s[1..]) + [s[0]]
  }

  /** Without missing values the unguarded item sum is the guarded one. */
  lemma {:induction false} RawSumWhenDefined(itens: seq<Item>)
    requires forall i :: 0 <= i < |itens| ==> itens[i].calorias.Value?
    ensures RawItemsSum(itens) == Some(ItemsCalories(itens))
  {
    if itens != [] {
      RawSumWhenDefined(itens[1..]);
    }
  }

  /** One missing value turns the unguarded sum into `NaN`. */
  lemma {:induction false} RawSumNaN(itens: seq<Item>, k: int)
    requires 0 <= k < |itens| && itens[k].calorias.Absent?
    ensures RawItemsSum(itens) == None
  {
    if k > 0 {
      RawSumNaN(itens[1..], k - 1);
    }
  }

  /** With non-negative item values and stored totals, a day's total is non-negative. */
  lemma {:induction false} DayCaloriesNonNegative(ms: seq<Meal>)
    requires forall i :: 0 <= i < |ms| ==> NonNegativeMeal(ms[i])
    ensures DayCalories(ms) >= 0.0
  {
    if ms != [] {
      ItemsNonNegative(ms[0].itens);
      DayCaloriesNonNegative(ms[1..]);
    }
  }

  ghost predicate NonNegativeMeal(m: Meal)
  {
    && (forall j :: 0 <= j < |m.itens| ==> Or(m.itens[j].calorias, 0.0) >= 0.0)
    && Or(m.caloriasTotal, Or(m.calorias, 0.0)) >= 0.0
  }

  lemma {:induction false} ItemsNonNegative(itens: seq<Item>)
    requires forall j :: 0 <= j < |itens| ==> Or(itens[j].calorias, 0.0) >= 0.0
    ensures ItemsCalories(itens) >= 0.0
  {
    if itens != [] {
      ItemsNonNegative(itens[1..]);
    }
  }

  /** The unguarded per-meal rule of the CSV export and the calendar's
      day details: the raw item sum (`NaN`, here `None`, as soon as an
      item has no calorie value) when there are items, else
      `calorias_total || calorias || 0`. */
  function RawMealCalories(m: Meal): Option<real>
  {
    if |m.itens| > 0 then RawItemsSum(m.itens) else Some(Or(m.caloriasTotal, Or(m.calorias, 0.0)))
  }

  /** The unguarded rule is the pages' rule whenever every item has a
      calorie value, and `NaN` as soon as one has none. */
  lemma RawMealCaloriesAgree(m: Meal)
    ensures (forall i :: 0 <= i < |m.itens| ==> m.itens[i].calorias.Value?) ==> RawMealCalories(m) == Some(MealCalories(m))
    ensures (exists i :: 0 <= i < |m.itens| && m.itens[i].calorias.Absent?) ==> RawMealCalories(m) == None
  {
    if forall i :: 0 <= i < |m.itens| ==> m.itens[i].calorias.Value? {
      RawSumWhenDefined(m.itens);
    }
    if exists i :: 0 <= i < |m.itens| && m.itens[i].calorias.Absent? {
      var i :| 0 <= i < |m.itens| && m.itens[i].calorias.Absent?;
      RawSumNaN(m.itens, i);
    }
  }

  // ------------------------------------------------------- counting by type

  /** `meals.filter(r => r.tipo === tipo).length`. */
  function CountTipo(ms: seq<Meal>, tipo: string): (r: nat)
    ensures r <= |ms|
  {
    if ms == [] then 0 else (if ms[0].tipo == tipo then 1 else 0) + CountTipo(ms[1..], tipo)
  }

  /** A meal appended to the list adds one to its own type's count. */
  lemma {:induction false} CountTipoAppend(ms: seq<Meal>, x: Meal, tipo: string)
    ensures CountTipo(ms + [x], tipo) == CountTipo(ms, tipo) + (if x.tipo == tipo then 1 else 0)
  {
    if ms == [] {
      assert ms + [x] == [x];
    } else {
      assert (ms + [x])[0] == ms[0] && (ms + [x])[1..] == ms[1..] + [x];
      CountTipoAppend(ms[1..], x, tipo);
    }
  }

  /** The counts for each of `tipos`, added up. */
  function SumCounts(ms: seq<Meal>, tipos: seq<string>): nat
  {
    if tipos == [] then 0 else CountTipo(ms, tipos[0]) + SumCounts(ms, tipos[1..])
  }

  /** How many meals have a type that is none of `tipos`. */
  function Uncounted(ms: seq<Meal>, tipos: seq<string>): (r: nat)
    ensures r <= |ms|
  {
    if ms == [] then 0 else (if ms[0].tipo in tipos then 0 else 1) + Uncounted(ms[1..], tipos)
  }

  predicate Distinct(tipos: seq<string>)
  {
    forall i, j :: 0 <= i < j < |tipos| ==> tipos[i] != tipos[j]
  }

  /** With distinct keys, the first meal adds one to the sum of the
      counts exactly when its type is one of them. */
  lemma {:induction false} SumCountsHead(ms: seq<Meal>, tipos: seq<string>)
    requires ms != [] && Distinct(tipos)
    ensures SumCounts(ms, tipos) == (if ms[0].tipo in tipos then 1 else 0) + SumCounts(ms[1..], tipos)
  {
    if tipos != [] {
      assert Distinct(tipos[1..]);
      SumCountsHead(ms, tipos[1..]);
      assert ms[0].tipo in tipos <==> ms[0].tipo == tipos[0] || ms[0].tipo in tipos[1..];
      assert tipos[0] !in tipos[1..];
    }
  }

  /** With distinct keys every meal is counted under exactly one key or
      not at all. */
  lemma {:induction false} CountsPartition(ms: seq<Meal>, tipos: seq<string>)
    requires Distinct(tipos)
    ensures SumCounts(ms, tipos) + Uncounted(ms, tipos) == |ms|
  {
    if ms == [] {
      SumCountsEmpty(tipos);
    } else {
      SumCountsHead(ms, tipos);
      CountsPartition(ms[1..], tipos);
    }
  }

  lemma {:induction false} SumCountsEmpty(tipos: seq<string>)
    ensures SumCounts([], tipos) == 0
  {
    if tipos != [] {
      SumCountsEmpty(tipos[1..]);
    }
  }

  /** Nobody is left out when every meal's type is a key. */
  lemma {:induction false} UncountedNone(ms: seq<Meal>, tipos: seq<string>)
    requires forall m :: m in ms ==> m.tipo in tipos
    ensures Uncounted(ms, tipos) == 0
  {
    if ms != [] {
      assert ms[0] in ms;
      UncountedNone(ms[1..], tipos);
    }
  }

  /** A key that no meal has counts nothing. */
  lemma {:induction false} CountAbsentTipo(ms: seq<Meal>, tipo: string)
    requires forall m :: m in ms ==> m.tipo != tipo
    ensures CountTipo(ms, tipo) == 0
  {
    if ms != [] {
      assert ms[0] in ms;
      CountAbsentTipo(ms[1..], tipo);
    }
  }
}
