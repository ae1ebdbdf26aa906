/** The `refeicoes` and `refeicao_itens` tables: creating a meal with its
    defaulted items, the day's meals newest first with their items in
    insertion order, deletion guarded by the owner, and the inclusive
    date-range listing. */
module MealRepository {
  import opened Js
  import opened Queries
  import Meals

  /** An item as `createRefeicao` receives it; any field may be missing. */
  datatype ItemIn = ItemIn(
    alimentoId: Option<int>,
    alimentoNome: Option<string>,
    nome: Option<string>,
    quantidade: JsNum,
    unidade: Option<string>,
    calorias: JsNum)

  /** The meal `createRefeicao` receives. `itens` is `None` when it is
      not an array. */
  datatype NewMeal = NewMeal(
    data: int,
    tipo: string,
    itens: Option<seq<ItemIn>>,
    caloriasTotal: JsNum,
    notas: Option<string>)

  /** A row of `refeicoes`. */
  datatype MealRow = MealRow(
    id: int,
    deviceId: string,
    data: int,
    tipo: string,
    caloriasTotal: real,
    notas: string,
    timestamp: int)

  /** A row of `refeicao_itens`. */
  datatype ItemRow = ItemRow(
    id: int,
    refeicaoId: int,
    alimentoId: Option<int>,
    alimentoNome: string,
    quantidade: real,
    unidade: string,
    calorias: real)

  /** Both tables in insertion order, their next serial ids, and the
      clock that stamps the next meal. */
  datatype MealTable = MealTable(
    meals: seq<MealRow>,
    items: seq<ItemRow>,
    nextMealId: int,
    nextItemId: int,
    clock: int)

  function MealId(m: MealRow): int
  {
    m.id
  }

  function MealTimestamp(m: MealRow): int
  {
    m.timestamp
  }

  function ItemId(i: ItemRow): int
  {
    i.id
  }

  function ItemMeal(i: ItemRow): int
  {
    i.refeicaoId
  }

  /** Serial ids and timestamps increase and stay below the next values;
      every item points at a meal id already handed out. */
  ghost predicate ValidTable(t: MealTable)
  {
    && StrictlyIncreasing(t.meals, MealId) && AllBelow(t.meals, MealId, t.nextMealId)
    && StrictlyIncreasing(t.meals, MealTimestamp) && AllBelow(t.meals, MealTimestamp, t.clock)
    && StrictlyIncreasing(t.items, ItemId) && AllBelow(t.items, ItemId, t.nextItemId)
    && AllBelow(t.items, ItemMeal, t.nextMealId)
  }

  /** `item.alimento_id || null`: 0 reads as no food. */
  function FoodRef(id: Option<int>): (r: Option<int>)
    ensures r.Some? <==> id.Some? && id.value != 0
    ensures r.Some? ==> r == id
  {
    if id.Some? && id.value != 0 then id else None
  }

  /** The item row stored for `x`, with the defaults of `createRefeicao`:
      no food, the name falling back to `item.nome` then '', quantity 0,
      unit 'g' and 0 calories. */
  function StoredItem(x: ItemIn, mealId: int, id: int): (r: ItemRow)
    ensures r.id == id && r.refeicaoId == mealId
    ensures r.alimentoId == FoodRef(x.alimentoId)
    ensures r.alimentoNome == OrStr(x.alimentoNome, OrStr(x.nome, ""))
    ensures r.quantidade == Or(x.quantidade, 0.0) && r.calorias == Or(x.calorias, 0.0)
    ensures r.unidade == OrStr(x.unidade, "g")
  {
    ItemRow(id, mealId, FoodRef(x.alimentoId), OrStr(x.alimentoNome, OrStr(x.nome, "")),
            Or(x.quantidade, 0.0), OrStr(x.unidade, "g"), Or(x.calorias, 0.0))
  }

  /** The item rows stored for a list, in list order, with consecutive ids. */
  function StoredItems(xs: seq<ItemIn>, mealId: int, firstId: int): (r: seq<ItemRow>)
    ensures |r| == |xs|
    ensures forall k :: 0 <= k < |xs| ==> r[k] == StoredItem(xs[k], mealId, firstId + k)
  {
    seq(|xs|, k requires 0 <= k < |xs| => StoredItem(xs[k], mealId, firstId + k))
  }

  /** The items `createRefeicao` inserts: none unless `itens` is a non-empty array. */
  function ItemsToStore(m: NewMeal): seq<ItemIn>
  {
    if m.itens.Some? then m.itens.value else []
  }

  /** The meal row `createRefeicao` inserts: `calorias_total || 0` and `notas || ''`. */
  function NewMealRow(t: MealTable, deviceId: string, m: NewMeal): MealRow
  {
    MealRow(t.nextMealId, deviceId, m.data, m.tipo, Or(m.caloriasTotal, 0.0), OrStr(m.notas, ""), t.clock)
  }

  /** Both tables after `createRefeicao(deviceId, m)`. */
  function Created(t: MealTable, deviceId: string, m: NewMeal): MealTable
  {
    var xs := ItemsToStore(m);
    MealTable(t.meals + [NewMealRow(t, deviceId, m)],
              t.items + StoredItems(xs, t.nextMealId, t.nextItemId),
              t.nextMealId + 1, t.nextItemId + |xs|, t.clock + 1)
  }

  lemma CreatedValid(t: MealTable, deviceId: string, m: NewMeal)
    requires ValidTable(t)
    ensures ValidTable(Created(t, deviceId, m))
  {
    var u := Created(t, deviceId, m);
    var added := StoredItems(ItemsToStore(m), t.nextMealId, t.nextItemId);
    assert u.items == t.items + added;
    forall i, j | 0 <= i < j < |u.items|
      ensures ItemId(u.items[i]) < ItemId(u.items[j])
    {
      if j >= |t.items| {
        assert u.items[j] == added[j - |t.items|];
        if i >= |t.items| {
          assert u.items[i] == added[i - |t.items|];
        }
      }
    }
  }

  /** A listed item: `calorias` becomes a defined number. */
  function AsItem(i: ItemRow): Meals.Item
  {
    Meals.Item(i.id, i.alimentoId, i.alimentoNome, i.quantidade, i.unidade, Value(i.calorias))
  }

  /** `json_agg(... ORDER BY ri.id) FILTER (WHERE ri.id IS NOT NULL)`,
      `COALESCE`d to `[]`: the meal's items in id order. */
  function ItemsOf(items: seq<ItemRow>, mealId: int): (r: seq<Meals.Item>)
    ensures |r| == |Filter(items, BelongsTo(mealId))|
  {
    var own := Filter(items, BelongsTo(mealId));
    seq(|own|, k requires 0 <= k < |own| => AsItem(own[k]))
  }

  function BelongsTo(mealId: int): ItemRow -> bool
  {
    (i: ItemRow) => i.refeicaoId == mealId
  }

  /** A meal row with its items, as the listing queries return it; there
      is no `calorias` column. */
  function AsListed(items: seq<ItemRow>, m: MealRow): Meals.Meal
  {
    Meals.Meal(m.id, m.data, m.tipo, ItemsOf(items, m.id), Value(m.caloriasTotal), Absent, m.timestamp, m.notas)
  }

  /** Each of `rows` with its items, in the same order. */
  function ListedAll(items: seq<ItemRow>, rows: seq<MealRow>): (r: seq<Meals.Meal>)
    ensures |r| == |rows|
    ensures forall k :: 0 <= k < |r| ==> r[k] == AsListed(items, rows[k])
  {
    seq(|rows|, k requires 0 <= k < |rows| => AsListed(items, rows[k]))
  }

  /** `r.timestamp DESC`. */
  predicate NewerFirst(a: MealRow, b: MealRow)
  {
    a.timestamp >= b.timestamp
  }

  /** `r.data DESC, r.timestamp DESC`. */
  predicate LaterDateFirst(a: MealRow, b: MealRow)
  {
    a.data > b.data || (a.data == b.data && a.timestamp >= b.timestamp)
  }

  lemma OrdersArePreorders()
    ensures TotalPreorder(NewerFirst) && TotalPreorder(LaterDateFirst)
  {
  }

  function OnDay(deviceId: string, data: int): MealRow -> bool
  {
    (m: MealRow) => m.deviceId == deviceId && m.data == data
  }

  function InRange(deviceId: string, inicio: int, fim: int): MealRow -> bool
  {
    (m: MealRow) => m.deviceId == deviceId && inicio <= m.data <= fim
  }

  /** The meal rows `getRefeicoesByDate` returns, newest first. */
  function DayRows(t: MealTable, deviceId: string, data: int): (r: seq<MealRow>)
    ensures Sorted(r, NewerFirst)
    ensures multiset(r) == multiset(Filter(t.meals, OnDay(deviceId, data)))
    ensures forall m :: m in r <==> m in t.meals && m.deviceId == deviceId && m.data == data
  {
    OrdersArePreorders();
    var r := Sort(Filter(t.meals, OnDay(deviceId, data)), NewerFirst);
    SameMembers(r, Filter(t.meals, OnDay(deviceId, data)));
    r
  }

  /** `getRefeicoesByDate(deviceId, data)`. */
  function ByDate(t: MealTable, deviceId: string, data: int): (r: seq<Meals.Meal>)
    ensures |r| == |DayRows(t, deviceId, data)|
    ensures forall k :: 0 <= k < |r| ==> r[k] == AsListed(t.items, DayRows(t, deviceId, data)[k])
  {
    ListedAll(t.items, DayRows(t, deviceId, data))
  }

  /** The meal rows `getRefeicoesByPeriod` returns, latest date first and
      newest first within a date, both ends of the range included. */
  function PeriodRows(t: MealTable, deviceId: string, inicio: int, fim: int): (r: seq<MealRow>)
    ensures Sorted(r, LaterDateFirst)
    ensures multiset(r) == multiset(Filter(t.meals, InRange(deviceId, inicio, fim)))
    ensures forall m :: m in r <==> m in t.meals && m.deviceId == deviceId && inicio <= m.data <= fim
  {
    OrdersArePreorders();
    var r := Sort(Filter(t.meals, InRange(deviceId, inicio, fim)), LaterDateFirst);
    SameMembers(r, Filter(t.meals, InRange(deviceId, inicio, fim)));
    r
  }

  /** `getRefeicoesByPeriod(deviceId, inicio, fim)`. */
  function ByPeriod(t: MealTable, deviceId: string, inicio: int, fim: int): (r: seq<Meals.Meal>)
    ensures |r| == |PeriodRows(t, deviceId, inicio, fim)|
    ensures forall k :: 0 <= k < |r| ==> r[k] == AsListed(t.items, PeriodRows(t, deviceId, inicio, fim)[k])
  {
    ListedAll(t.items, PeriodRows(t, deviceId, inicio, fim))
  }

  /** Newly created items are exactly the items of the new meal: no
      older item points at its id. */
  lemma NewMealItems(t: MealTable, deviceId: string, m: NewMeal)
    requires ValidTable(t)
    ensures var u := Created(t, deviceId, m);
      Filter(u.items, BelongsTo(t.nextMealId)) == StoredItems(ItemsToStore(m), t.nextMealId, t.nextItemId)
  {
    var added := StoredItems(ItemsToStore(m), t.nextMealId, t.nextItemId);
    FilterAppend(t.items, added, BelongsTo(t.nextMealId));
    forall x | x in t.items
      ensures !BelongsTo(t.nextMealId)(x)
    {
      MemberBelow(t.items, ItemMeal, t.nextMealId, x);
    }
    FilterNone(t.items, BelongsTo(t.nextMealId));
    FilterAll(added, BelongsTo(t.nextMealId));
  }

  /** A newly created meal heads its day's rows. */
  lemma NewMealFirst(t: MealTable, deviceId: string, m: NewMeal)
    requires ValidTable(t)
    ensures var rows := DayRows(Created(t, deviceId, m), deviceId, m.data);
      |rows| > 0 && rows[0] == NewMealRow(t, deviceId, m)
  {
    var u := Created(t, deviceId, m);
    var row := NewMealRow(t, deviceId, m);
    var rows := DayRows(u, deviceId, m.data);
    assert row in u.meals;
    assert row in rows;
    SortedHead(rows, NewerFirst, row);
    assert rows[0] in u.meals;
    forall x | x in t.meals
      ensures MealTimestamp(x) < t.clock
    {
      MemberBelow(t.meals, MealTimestamp, t.clock, x);
    }
  }

  /** Creating a meal and listing its day gives the new meal first, with
      its stored total and notes and its items in list order and defaulted. */
  lemma CreateThenList(t: MealTable, deviceId: string, m: NewMeal)
    requires ValidTable(t)
    ensures var listed := ByDate(Created(t, deviceId, m), deviceId, m.data);
      && |listed| > 0
      && listed[0].id == t.nextMealId
      && listed[0].caloriasTotal == Value(Or(m.caloriasTotal, 0.0))
      && listed[0].notas == OrStr(m.notas, "")
      && |listed[0].itens| == |ItemsToStore(m)|
      && forall k :: 0 <= k < |ItemsToStore(m)| ==>
           listed[0].itens[k] == AsItem(StoredItem(ItemsToStore(m)[k], t.nextMealId, t.nextItemId + k))
  {
    var u := Created(t, deviceId, m);
    NewMealFirst(t, deviceId, m);
    NewMealItems(t, deviceId, m);
    var listed := ByDate(u, deviceId, m.data);
    var xs := ItemsToStore(m);
    var own := Filter(u.items, BelongsTo(t.nextMealId));
    assert listed[0] == AsListed(u.items, NewMealRow(t, deviceId, m));
    assert listed[0].itens == ItemsOf(u.items, t.nextMealId);
    forall k | 0 <= k < |xs|
      ensures listed[0].itens[k] == AsItem(StoredItem(xs[k], t.nextMealId, t.nextItemId + k))
    {
      assert own[k] == StoredItem(xs[k], t.nextMealId, t.nextItemId + k);
    }
  }

  /** Some meal has this id and belongs to this device. */
  predicate Owned(meals: seq<MealRow>, deviceId: string, id: int)
  {
    exists k :: 0 <= k < |meals| && meals[k].id == id && meals[k].deviceId == deviceId
  }

  function Survives(deviceId: string, id: int): MealRow -> bool
  {
    (m: MealRow) => m.id != id || m.deviceId != deviceId
  }

  /** The meal rows `DELETE FROM refeicoes WHERE id = $1 AND device_id = $2`
      keeps; item rows are not touched here. */
  function Deleted(meals: seq<MealRow>, deviceId: string, id: int): (r: seq<MealRow>)
    ensures forall x :: x in r <==> x in meals && (x.id != id || x.deviceId != deviceId)
  {
    Filter(meals, Survives(deviceId, id))
  }

  /** A delete removes a meal exactly when the id belongs to the device;
      otherwise nothing changes. */
  lemma DeleteRemovesIffOwned(meals: seq<MealRow>, deviceId: string, id: int)
    ensures Owned(meals, deviceId, id) <==> |Deleted(meals, deviceId, id)| < |meals|
    ensures !Owned(meals, deviceId, id) ==> Deleted(meals, deviceId, id) == meals
  {
    if Owned(meals, deviceId, id) {
      var k :| 0 <= k < |meals| && meals[k].id == id && meals[k].deviceId == deviceId;
      FilterDrops(meals, Survives(deviceId, id), k);
    } else {
      FilterAll(meals, Survives(deviceId, id));
    }
  }

  /** After a delete the meal is listed on no day, while every other
      device's meals, including any with the same id, stay listed. */
  lemma DeleteHidesOnlyThatMeal(t: MealTable, deviceId: string, id: int, d: string, data: int)
    ensures var u := t.(meals := Deleted(t.meals, deviceId, id));
      && (forall m :: m in DayRows(u, d, data) ==> m.id != id || m.deviceId != deviceId)
      && (d != deviceId ==> DayRows(u, d, data) == DayRows(t, d, data))
  {
    var u := t.(meals := Deleted(t.meals, deviceId, id));
    if d != deviceId {
      FilterTwice(t.meals, Survives(deviceId, id), OnDay(d, data));
    }
  }

  /** Filtering out rows the second filter rejects anyway changes nothing. */
  lemma {:induction false} FilterTwice(s: seq<MealRow>, p: MealRow -> bool, q: MealRow -> bool)
    requires forall x :: q(x) ==> p(x)
    ensures Filter(Filter(s, p), q) == Filter(s, q)
  {
    if s != [] {
      FilterTwice(s[1..], p, q);
      FilterCons(s, p);
      FilterCons(s, q);
      if p(s[0]) {
        FilterCons(Filter(s, p), q);
      }
    }
  }

  /** The two tables as a mutable store. */
  class MealStore {
    var meals: seq<MealRow>
    var items: seq<ItemRow>
    var nextMealId: int
    var nextItemId: int
    var clock: int

    ghost predicate Valid()
      reads this
    {
      ValidTable(Table())
    }

    function Table(): MealTable
      reads this
    {
      MealTable(meals, items, nextMealId, nextItemId, clock)
    }

    constructor ()
      ensures Valid() && meals == [] && items == []
    {
      meals := [];
      items := [];
      nextMealId := 1;
      nextItemId := 1;
      clock := 0;
    }

    /** `createRefeicao`: inserts the meal row, then each item in list order. */
    method CreateRefeicao(deviceId: string, m: NewMeal) returns (row: MealRow)
      requires Valid()
      modifies this
      ensures Valid()
      ensures Table() == Created(old(Table()), deviceId, m)
      ensures row == NewMealRow(old(Table()), deviceId, m)
    {
      CreatedValid(Table(), deviceId, m);
      row := MealRow(nextMealId, deviceId, m.data, m.tipo, Or(m.caloriasTotal, 0.0), OrStr(m.notas, ""), clock);
      meals := meals + [row];
      nextMealId := nextMealId + 1;
      clock := clock + 1;
      if m.itens.Some? && |m.itens.value| > 0 {
        InsertItems(m.itens.value, row.id);
      }
      assert Table() == Created(old(Table()), deviceId, m);
    }

    /** The loop of `createRefeicao` over the items: one row per item, in
        list order, with consecutive ids. */
    method InsertItems(xs: seq<ItemIn>, mealId: int)
      modifies this
      ensures items == old(items) + StoredItems(xs, mealId, old(nextItemId))
      ensures nextItemId == old(nextItemId) + |xs|
      ensures meals == old(meals) && nextMealId == old(nextMealId) && clock == old(clock)
    {
      for k := 0 to |xs|
        invariant meals == old(meals) && nextMealId == old(nextMealId) && clock == old(clock)
        invariant items == old(items) + StoredItems(xs[..k], mealId, old(nextItemId))
        invariant nextItemId == old(nextItemId) + k
      {
        assert StoredItems(xs[..k + 1], mealId, old(nextItemId))
            == StoredItems(xs[..k], mealId, old(nextItemId)) + [StoredItem(xs[k], mealId, nextItemId)];
        items := items + [StoredItem(xs[k], mealId, nextItemId)];
        nextItemId := nextItemId + 1;
      }
      assert xs[..|xs|] == xs;
    }

    /** `deleteRefeicao`: deletes the meal if it belongs to the device,
        and reports whether a meal was deleted. */
    method DeleteRefeicao(deviceId: string, id: int) returns (deleted: bool)
      requires Valid()
      modifies this
      ensures Valid()
      ensures Table() == old(Table()).(meals := Deleted(old(meals), deviceId, id))
      ensures deleted == Owned(old(meals), deviceId, id)
    {
      DeleteRemovesIffOwned(meals, deviceId, id);
      var kept := Deleted(meals, deviceId, id);
      deleted := |kept| < |meals|;
      FilterKeepsIncreasing(meals, Survives(deviceId, id), MealId);
      FilterKeepsIncreasing(meals, Survives(deviceId, id), MealTimestamp);
      FilterKeepsBelow(meals, Survives(deviceId, id), MealId, nextMealId);
      FilterKeepsBelow(meals, Survives(deviceId, id), MealTimestamp, clock);
      meals := kept;
    }
  }
}
