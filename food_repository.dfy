/** The `alimentos` table and its repository: search by name fragment
    ordered by name and capped at 50 rows, lookups by id and by
    case-insensitive name, creation, and seeding that skips names already
    present. */
module FoodRepository {
  import opened Js
  import opened Text
  import opened Queries

  /** A row of `alimentos`. */
  datatype Food = Food(id: int, nome: string, caloriasPor100g: real, categoria: string, unidade: string)

  /** The fields `createAlimento` receives; `unidade` may be left out. */
  datatype FoodSeed = FoodSeed(nome: string, caloriasPor100g: real, categoria: string, unidade: Option<string>)

  /** The table's rows in insertion order and the next serial id. */
  datatype FoodTable = FoodTable(foods: seq<Food>, nextId: int)

  /** Serial ids: strictly increasing in insertion order and below the next id. */
  ghost predicate ValidTable(t: FoodTable)
  {
    && (forall i, j :: 0 <= i < j < |t.foods| ==> t.foods[i].id < t.foods[j].id)
    && (forall i :: 0 <= i < |t.foods| ==> t.foods[i].id < t.nextId)
  }

  /** Largest number of rows `getAllAlimentos` returns (`LIMIT 50`). */
  const SearchLimit: nat := 50

  /** `LOWER(a) = LOWER(b)`. */
  predicate SameName(a: string, b: string)
  {
    LowerStr(a) == LowerStr(b)
  }

  /** `LOWER(nome) LIKE LOWER('%term%')`, with `%` and `_` in the term taken literally. */
  predicate Matches(f: Food, term: string)
  {
    Contains(LowerStr(f.nome), LowerStr(term))
  }

  /** `ORDER BY nome`. */
  predicate NameOrder(a: Food, b: Food)
  {
    LessEq(a.nome, b.nome)
  }

  lemma NameOrderIsPreorder()
    ensures TotalPreorder(NameOrder)
  {
    forall a: Food, b: Food
      ensures NameOrder(a, b) || NameOrder(b, a)
    {
      LessEqTotal(a.nome, b.nome);
    }
    forall a: Food, b: Food, c: Food | NameOrder(a, b) && NameOrder(b, c)
      ensures NameOrder(a, c)
    {
      LessEqTransitive(a.nome, b.nome, c.nome);
    }
  }

  /** The rows matching a search term, in table order. */
  function Matching(foods: seq<Food>, term: string): seq<Food>
  {
    Filter(foods, f => Matches(f, term))
  }

  /** The rows `getAllAlimentos` orders and limits: the matching ones for
      a truthy search, all of them otherwise. */
  function Candidates(foods: seq<Food>, search: Option<string>): seq<Food>
  {
    if TruthyStr(search) then Matching(foods, search.value) else foods
  }

  /** `getAllAlimentos(search)`: the candidates ordered by name, first 50. */
  function GetAll(foods: seq<Food>, search: Option<string>): (r: seq<Food>)
    ensures |r| <= SearchLimit
    ensures Sorted(r, NameOrder)
    ensures forall f :: f in r ==> f in foods
    ensures TruthyStr(search) ==> forall f :: f in r ==> Matches(f, search.value)
    ensures multiset(r) <= multiset(Candidates(foods, search))
    ensures |Candidates(foods, search)| <= SearchLimit ==> multiset(r) == multiset(Candidates(foods, search))
    ensures |Candidates(foods, search)| > SearchLimit ==> |r| == SearchLimit
    ensures forall x, y :: x in Candidates(foods, search) && x !in r && y in r ==> NameOrder(y, x)
  {
    var c := Candidates(foods, search);
    NameOrderIsPreorder();
    var s := Sort(c, NameOrder);
    var r := Take(s, SearchLimit);
    assert s == r + s[|r|..];
    assert multiset(s) == multiset(r) + multiset(s[|r|..]);
    forall f | f in r
      ensures f in c
    {
      assert f in multiset(s);
    }
    forall x, y | x in c && x !in r && y in r
      ensures NameOrder(y, x)
    {
      assert x in multiset(s);
      TakeSortedLeavesOut(s, NameOrder, SearchLimit, x);
    }
    r
  }

  /** An empty search term is the same as no search term. */
  lemma EmptySearchIsNoSearch(foods: seq<Food>)
    ensures GetAll(foods, Some("")) == GetAll(foods, None)
  {
  }

  /** The empty fragment matches every row, so filtering by it would
      select the same rows as not filtering. */
  lemma EmptyTermMatchesAll(foods: seq<Food>)
    ensures Matching(foods, "") == foods
  {
    forall f | f in foods
      ensures Matches(f, "")
    {
      ContainsEmpty(LowerStr(f.nome));
    }
    FilterAll(foods, f => Matches(f, ""));
  }

  /** `getAlimentoById(id)`: the row with that id, or `null`. */
  function ById(foods: seq<Food>, id: int): (r: Option<Food>)
    ensures r.Some? ==> r.value in foods && r.value.id == id
    ensures r.None? <==> forall f :: f in foods ==> f.id != id
  {
    if foods == [] then None
    else if foods[0].id == id then Some(foods[0])
    else ById(foods[1..], id)
  }

  /** `getAlimentoByNome(nome)`: the first row whose name equals `nome`
      up to case, or `null`. */
  function ByNome(foods: seq<Food>, nome: string): (r: Option<Food>)
    ensures r.Some? ==> r.value in foods && SameName(r.value.nome, nome)
    ensures r.None? <==> forall f :: f in foods ==> !SameName(f.nome, nome)
  {
    if foods == [] then None
    else if SameName(foods[0].nome, nome) then Some(foods[0])
    else ByNome(foods[1..], nome)
  }

  /** In a table with serial ids, looking a row up by its id finds that row. */
  lemma ByIdFindsRow(t: FoodTable, k: int)
    requires ValidTable(t) && 0 <= k < |t.foods|
    ensures ById(t.foods, t.foods[k].id) == Some(t.foods[k])
  {
    var r := ById(t.foods, t.foods[k].id);
    var i :| 0 <= i < |t.foods| && t.foods[i] == r.value;
    assert i == k;
  }

  /** Name lookup ignores case. */
  lemma ByNomeIgnoresCase(foods: seq<Food>, nome: string)
    ensures ByNome(foods, LowerStr(nome)) == ByNome(foods, nome)
  {
    LowerStrIdempotent(nome);
    if foods != [] {
      ByNomeIgnoresCase(foods[1..], nome);
    }
  }

  /** The row `createAlimento` inserts: `unidade` defaults to 'g' only
      when it is left out. */
  function NewFood(s: FoodSeed, id: int): (r: Food)
    ensures r.id == id && r.nome == s.nome && r.caloriasPor100g == s.caloriasPor100g
    ensures r.categoria == s.categoria
    ensures r.unidade == if s.unidade.Some? then s.unidade.value else "g"
  {
    Food(id, s.nome, s.caloriasPor100g, s.categoria, if s.unidade.Some? then s.unidade.value else "g")
  }

  /** The table after `createAlimento`; there is no uniqueness check. */
  function Created(t: FoodTable, s: FoodSeed): FoodTable
  {
    FoodTable(t.foods + [NewFood(s, t.nextId)], t.nextId + 1)
  }

  /** One step of `initializeAlimentos`: insert unless the name is present. */
  function SeedStep(t: FoodTable, s: FoodSeed): FoodTable
  {
    if ByNome(t.foods, s.nome).Some? then t else Created(t, s)
  }

  /** The table after `initializeAlimentos(seed)`, seeding in list order. */
  function Initialized(t: FoodTable, seed: seq<FoodSeed>): FoodTable
  {
    if seed == [] then t else SeedStep(Initialized(t, seed[..|seed| - 1]), seed[|seed| - 1])
  }

  lemma CreatedValid(t: FoodTable, s: FoodSeed)
    requires ValidTable(t)
    ensures ValidTable(Created(t, s))
  {
  }

  /** Seeding keeps serial ids valid. */
  lemma {:induction false} InitializedValid(t: FoodTable, seed: seq<FoodSeed>)
    requires ValidTable(t)
    ensures ValidTable(Initialized(t, seed))
  {
    if seed != [] {
      InitializedValid(t, seed[..|seed| - 1]);
      CreatedValid(Initialized(t, seed[..|seed| - 1]), seed[|seed| - 1]);
    }
  }

  /** Seeding only appends rows. */
  lemma {:induction false} InitializedExtends(t: FoodTable, seed: seq<FoodSeed>)
    ensures t.foods <= Initialized(t, seed).foods
  {
    if seed != [] {
      InitializedExtends(t, seed[..|seed| - 1]);
    }
  }

  /** A name found in a table is still found after rows are appended. */
  lemma PresentInExtension(a: seq<Food>, b: seq<Food>, nome: string)
    requires a <= b && ByNome(a, nome).Some?
    ensures ByNome(b, nome).Some?
  {
    var f := ByNome(a, nome).value;
    assert f in b by {
      var i :| 0 <= i < |a| && a[i] == f;
      assert b[i] == f;
    }
  }

  /** After seeding, every seed name is present. */
  lemma {:induction false} SeededNamesPresent(t: FoodTable, seed: seq<FoodSeed>, k: int)
    requires 0 <= k < |seed|
    ensures ByNome(Initialized(t, seed).foods, seed[k].nome).Some?
  {
    var front := seed[..|seed| - 1];
    var u := Initialized(t, front);
    var last := seed[|seed| - 1];
    if k == |seed| - 1 {
      if ByNome(u.foods, last.nome).None? {
        var f := NewFood(last, u.nextId);
        assert f in Created(u, last).foods;
      }
    } else {
      assert seed[k] == front[k];
      SeededNamesPresent(t, front, k);
      PresentInExtension(u.foods, SeedStep(u, last).foods, seed[k].nome);
    }
  }

  /** Seeding with names that are all present changes nothing. */
  lemma {:induction false} SeedingPresentNamesIsIdentity(t: FoodTable, seed: seq<FoodSeed>)
    requires forall k :: 0 <= k < |seed| ==> ByNome(t.foods, seed[k].nome).Some?
    ensures Initialized(t, seed) == t
  {
    if seed != [] {
      SeedingPresentNamesIsIdentity(t, seed[..|seed| - 1]);
    }
  }

  /** Running `initializeAlimentos` twice leaves the same table as running it once. */
  lemma InitializeIdempotent(t: FoodTable, seed: seq<FoodSeed>)
    ensures Initialized(Initialized(t, seed), seed) == Initialized(t, seed)
  {
    forall k | 0 <= k < |seed|
      ensures ByNome(Initialized(t, seed).foods, seed[k].nome).Some?
    {
      SeededNamesPresent(t, seed, k);
    }
    SeedingPresentNamesIsIdentity(Initialized(t, seed), seed);
  }

  /** No two rows share a name up to case. */
  ghost predicate NamesDistinct(foods: seq<Food>)
  {
    forall i, j :: 0 <= i < j < |foods| ==> !SameName(foods[i].nome, foods[j].nome)
  }

  /** Seeding never introduces a second row with a name already present,
      so a table without case-insensitive duplicates keeps none. */
  lemma {:induction false} InitializedNamesDistinct(t: FoodTable, seed: seq<FoodSeed>)
    requires NamesDistinct(t.foods)
    ensures NamesDistinct(Initialized(t, seed).foods)
  {
    if seed != [] {
      var u := Initialized(t, seed[..|seed| - 1]);
      InitializedNamesDistinct(t, seed[..|seed| - 1]);
      var s := seed[|seed| - 1];
      if ByNome(u.foods, s.nome).None? {
        var v := Created(u, s).foods;
        forall i, j | 0 <= i < j < |v|
          ensures !SameName(v[i].nome, v[j].nome)
        {
          if j == |u.foods| {
            assert v[i] in u.foods;
          }
        }
      }
    }
  }

  /** The `alimentos` table as a mutable store. */
  class FoodStore {
    var foods: seq<Food>
    var nextId: int

    ghost predicate Valid()
      reads this
    {
      ValidTable(Table())
    }

    function Table(): FoodTable
      reads this
    {
      FoodTable(foods, nextId)
    }

    constructor ()
      ensures Valid() && foods == [] && nextId == 1
    {
      foods := [];
      nextId := 1;
    }

    /** `createAlimento`: inserts a row and returns it. */
    method CreateAlimento(s: FoodSeed) returns (f: Food)
      requires Valid()
      modifies this
      ensures Valid()
      ensures Table() == Created(old(Table()), s)
      ensures f == NewFood(s, old(nextId)) && f.id !in set g | g in old(foods) :: g.id
    {
      f := NewFood(s, nextId);
      foods := foods + [f];
      nextId := nextId + 1;
    }

    /** `initializeAlimentos`: for each seed food in order, insert it
        unless a row with the same name up to case exists. */
    method InitializeAlimentos(seed: seq<FoodSeed>)
      requires Valid()
      modifies this
      ensures Valid()
      ensures Table() == Initialized(old(Table()), seed)
    {
      for k := 0 to |seed|
        invariant Valid()
        invariant Table() == Initialized(old(Table()), seed[..k])
      {
        assert seed[..k + 1][..k] == seed[..k];
        if ByNome(foods, seed[k].nome).None? {
          var _ := CreateAlimento(seed[k]);
        }
      }
      assert seed[..|seed|] == seed;
    }
  }
}
