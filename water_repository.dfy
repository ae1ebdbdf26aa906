/** The `agua` table: water entries per device and date, the day's
    total with its entries newest first, deletion guarded by the owner,
    and the inclusive date-range listing. */
module WaterRepository {
  import opened Queries

  /** A row of `agua`; `data` is a day number and `timestamp` the
      insertion time. */
  datatype AguaRow = AguaRow(id: int, deviceId: string, data: int, quantidade: int, timestamp: int)

  /** The rows in insertion order, the next serial id and the clock that
      stamps the next insertion. */
  datatype AguaTable = AguaTable(rows: seq<AguaRow>, nextId: int, clock: int)

  function Id(r: AguaRow): int
  {
    r.id
  }

  function Timestamp(r: AguaRow): int
  {
    r.timestamp
  }

  /** Serial ids and insertion timestamps both increase strictly and stay
      below the next id and the clock. */
  ghost predicate ValidTable(t: AguaTable)
  {
    && StrictlyIncreasing(t.rows, Id) && AllBelow(t.rows, Id, t.nextId)
    && StrictlyIncreasing(t.rows, Timestamp) && AllBelow(t.rows, Timestamp, t.clock)
  }

  function Quantidade(r: AguaRow): int
  {
    r.quantidade
  }

  /** `ORDER BY timestamp DESC`. */
  predicate NewerFirst(a: AguaRow, b: AguaRow)
  {
    a.timestamp >= b.timestamp
  }

  /** `ORDER BY data DESC, timestamp DESC`. */
  predicate LaterDateFirst(a: AguaRow, b: AguaRow)
  {
    a.data > b.data || (a.data == b.data && a.timestamp >= b.timestamp)
  }

  lemma OrdersArePreorders()
    ensures TotalPreorder(NewerFirst) && TotalPreorder(LaterDateFirst)
  {
  }

  /** `WHERE device_id = $1 AND data = $2`. */
  function OnDay(deviceId: string, data: int): AguaRow -> bool
  {
    (r: AguaRow) => r.deviceId == deviceId && r.data == data
  }

  function OfDay(rows: seq<AguaRow>, deviceId: string, data: int): seq<AguaRow>
  {
    Filter(rows, OnDay(deviceId, data))
  }

  /** The result of `getAguaByDate`. */
  datatype DayWater = DayWater(total: int, registros: seq<AguaRow>)

  /** `getAguaByDate(deviceId, data)`: the day's entries newest first
      and the sum of their amounts. */
  function ByDate(rows: seq<AguaRow>, deviceId: string, data: int): (r: DayWater)
    ensures Sorted(r.registros, NewerFirst)
    ensures multiset(r.registros) == multiset(OfDay(rows, deviceId, data))
    ensures r.total == SumInt(OfDay(rows, deviceId, data), Quantidade)
  {
    OrdersArePreorders();
    var day := OfDay(rows, deviceId, data);
    var registros := Sort(day, NewerFirst);
    SumIntPermutation(registros, day, Quantidade);
    DayWater(SumInt(registros, Quantidade), registros)
  }

  /** A day without entries has total 0. */
  lemma EmptyDayTotal(rows: seq<AguaRow>, deviceId: string, data: int)
    requires forall r :: r in rows ==> r.deviceId != deviceId || r.data != data
    ensures ByDate(rows, deviceId, data) == DayWater(0, [])
  {
    FilterNone(rows, OnDay(deviceId, data));
  }

  /** `WHERE device_id = $1 AND data >= $2 AND data <= $3`: both ends included. */
  function InRange(deviceId: string, inicio: int, fim: int): AguaRow -> bool
  {
    (r: AguaRow) => r.deviceId == deviceId && inicio <= r.data <= fim
  }

  function InPeriod(rows: seq<AguaRow>, deviceId: string, inicio: int, fim: int): seq<AguaRow>
  {
    Filter(rows, InRange(deviceId, inicio, fim))
  }

  /** `getAguaByPeriod`: the rows in the range, latest date first and
      newest first within a date. */
  function ByPeriod(rows: seq<AguaRow>, deviceId: string, inicio: int, fim: int): (r: seq<AguaRow>)
    ensures Sorted(r, LaterDateFirst)
    ensures multiset(r) == multiset(InPeriod(rows, deviceId, inicio, fim))
    ensures forall x :: x in r ==> x in rows && x.deviceId == deviceId && inicio <= x.data <= fim
  {
    OrdersArePreorders();
    var r := Sort(InPeriod(rows, deviceId, inicio, fim), LaterDateFirst);
    SameMembers(r, InPeriod(rows, deviceId, inicio, fim));
    r
  }

  /** A one-day range lists exactly the rows of that day. */
  lemma OneDayPeriod(rows: seq<AguaRow>, deviceId: string, data: int)
    ensures InPeriod(rows, deviceId, data, data) == OfDay(rows, deviceId, data)
  {
    SameFilter(rows, InRange(deviceId, data, data), OnDay(deviceId, data));
  }

  lemma {:induction false} SameFilter(rows: seq<AguaRow>, p: AguaRow -> bool, q: AguaRow -> bool)
    requires forall r :: p(r) == q(r)
    ensures Filter(rows, p) == Filter(rows, q)
  {
    if rows != [] {
      SameFilter(rows[1..], p, q);
    }
  }

  /** The row `createAgua` inserts: the given device, date and amount, unchanged. */
  function NewRow(t: AguaTable, deviceId: string, data: int, quantidade: int): AguaRow
  {
    AguaRow(t.nextId, deviceId, data, quantidade, t.clock)
  }

  function Created(t: AguaTable, deviceId: string, data: int, quantidade: int): AguaTable
  {
    AguaTable(t.rows + [NewRow(t, deviceId, data, quantidade)], t.nextId + 1, t.clock + 1)
  }

  /** Some row has this id and belongs to this device. */
  predicate Owned(rows: seq<AguaRow>, deviceId: string, id: int)
  {
    exists i :: 0 <= i < |rows| && rows[i].id == id && rows[i].deviceId == deviceId
  }

  /** The rows `DELETE FROM agua WHERE id = $1 AND device_id = $2` keeps. */
  function Survives(deviceId: string, id: int): AguaRow -> bool
  {
    (x: AguaRow) => x.id != id || x.deviceId != deviceId
  }

  function Deleted(rows: seq<AguaRow>, deviceId: string, id: int): (r: seq<AguaRow>)
    ensures forall x :: x in r <==> x in rows && (x.id != id || x.deviceId != deviceId)
  {
    Filter(rows, Survives(deviceId, id))
  }

  /** A delete removes something exactly when a row with that id belongs
      to that device; otherwise the table is unchanged. */
  lemma DeleteRemovesIffOwned(rows: seq<AguaRow>, deviceId: string, id: int)
    ensures Owned(rows, deviceId, id) <==> |Deleted(rows, deviceId, id)| < |rows|
    ensures !Owned(rows, deviceId, id) ==> Deleted(rows, deviceId, id) == rows
  {
    var p := Survives(deviceId, id);
    if Owned(rows, deviceId, id) {
      var k :| 0 <= k < |rows| && rows[k].id == id && rows[k].deviceId == deviceId;
      FilterDrops(rows, p, k);
    } else {
      FilterAll(rows, p);
    }
  }

  lemma CreatedValid(t: AguaTable, deviceId: string, data: int, quantidade: int)
    requires ValidTable(t)
    ensures ValidTable(Created(t, deviceId, data, quantidade))
  {
  }

  /** After an entry is added, its day's total grows by its amount and
      the other days' totals are unchanged. */
  lemma CreateAddsToTotal(t: AguaTable, deviceId: string, data: int, quantidade: int, d: string, day: int)
    ensures ByDate(Created(t, deviceId, data, quantidade).rows, d, day).total
         == ByDate(t.rows, d, day).total + (if d == deviceId && day == data then quantidade else 0)
  {
    var row := NewRow(t, deviceId, data, quantidade);
    FilterAppend(t.rows, [row], OnDay(d, day));
    SumIntAppend(OfDay(t.rows, d, day), OfDay([row], d, day), Quantidade);
  }

  /** After an entry is added, it heads its day's list. */
  lemma CreateListsNewestFirst(t: AguaTable, deviceId: string, data: int, quantidade: int)
    requires ValidTable(t)
    ensures var regs := ByDate(Created(t, deviceId, data, quantidade).rows, deviceId, data).registros;
      |regs| > 0 && regs[0] == NewRow(t, deviceId, data, quantidade)
  {
    NewestHeads(t.rows, NewRow(t, deviceId, data, quantidade), t.clock);
  }

  /** A row stamped after every other row of its day heads that day. */
  lemma NewestHeads(rows: seq<AguaRow>, row: AguaRow, clock: int)
    requires AllBelow(rows, Timestamp, clock) && row.timestamp == clock
    ensures var regs := ByDate(rows + [row], row.deviceId, row.data).registros;
      |regs| > 0 && regs[0] == row
  {
    var all := rows + [row];
    var day := OfDay(all, row.deviceId, row.data);
    var regs := ByDate(all, row.deviceId, row.data).registros;
    assert row in day;
    SameMembers(regs, day);
    SortedHead(regs, NewerFirst, row);
    assert regs[0] in all;
    forall x | x in rows
      ensures Timestamp(x) < clock
    {
      MemberBelow(rows, Timestamp, clock, x);
    }
  }

  /** The `agua` table as a mutable store. */
  class WaterStore {
    var rows: seq<AguaRow>
    var nextId: int
    var clock: int

    ghost predicate Valid()
      reads this
    {
      ValidTable(Table())
    }

    function Table(): AguaTable
      reads this
    {
      AguaTable(rows, nextId, clock)
    }

    constructor ()
      ensures Valid() && rows == [] && nextId == 1 && clock == 0
    {
      rows := [];
      nextId := 1;
      clock := 0;
    }

    /** `createAgua`: inserts the entry and returns the new row. */
    method CreateAgua(deviceId: string, data: int, quantidade: int) returns (row: AguaRow)
      requires Valid()
      modifies this
      ensures Valid()
      ensures Table() == Created(old(Table()), deviceId, data, quantidade)
      ensures row == NewRow(old(Table()), deviceId, data, quantidade)
    {
      row := AguaRow(nextId, deviceId, data, quantidade, clock);
      rows := rows + [row];
      nextId := nextId + 1;
      clock := clock + 1;
    }

    /** `deleteAgua`: deletes the row with that id if it belongs to the
        device, and reports whether a row was deleted. */
    method DeleteAgua(deviceId: string, id: int) returns (deleted: bool)
      requires Valid()
      modifies this
      ensures Valid()
      ensures rows == Deleted(old(rows), deviceId, id) && nextId == old(nextId) && clock == old(clock)
      ensures deleted == Owned(old(rows), deviceId, id)
    {
      DeleteRemovesIffOwned(rows, deviceId, id);
      var kept := Deleted(rows, deviceId, id);
      deleted := |kept| < |rows|;
      FilterKeepsIncreasing(rows, Survives(deviceId, id), Id);
      FilterKeepsIncreasing(rows, Survives(deviceId, id), Timestamp);
      FilterKeepsBelow(rows, Survives(deviceId, id), Id, nextId);
      FilterKeepsBelow(rows, Survives(deviceId, id), Timestamp, clock);
      rows := kept;
    }
  }

}
