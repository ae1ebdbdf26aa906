/** The `usuarios`, `metas` and `streaks` tables: users created on first
    sight with default goals and zero streaks, goals and streaks created
    lazily when read, and partial updates that keep omitted fields
    (`COALESCE`). No uniqueness constraint is assumed on these tables. */
module UserRepository {
  import opened Js

  /** Daily goals: calories and water in ml. */
  datatype Metas = Metas(calorias: int, agua: int)

  datatype MetasRow = MetasRow(deviceId: string, metas: Metas)

  datatype Streaks = Streaks(calorias: int, agua: int, ambas: int)

  datatype StreakRow = StreakRow(deviceId: string, streaks: Streaks)

  /** The three tables, rows in insertion order; a user row is its device id. */
  datatype UserTables = UserTables(usuarios: seq<string>, metas: seq<MetasRow>, streaks: seq<StreakRow>)

  const DefaultMetas := Metas(1600, 4000)

  const DefaultStreaks := Streaks(0, 0, 0)

  /** `COALESCE($k, column)`: an omitted (`null` / `undefined`) value keeps the column. */
  function Coalesce(given: Option<int>, current: int): (r: int)
    ensures given.Some? ==> r == given.value
    ensures given.None? ==> r == current
  {
    if given.Some? then given.value else current
  }

  /** `SELECT * FROM metas WHERE device_id = $1`, first row. */
  function FindMetas(rows: seq<MetasRow>, deviceId: string): (r: Option<Metas>)
    ensures r.Some? ==> MetasRow(deviceId, r.value) in rows
    ensures r.None? <==> forall row :: row in rows ==> row.deviceId != deviceId
  {
    if rows == [] then None
    else if rows[0].deviceId == deviceId then Some(rows[0].metas)
    else FindMetas(rows[1..], deviceId)
  }

  function FindStreaks(rows: seq<StreakRow>, deviceId: string): (r: Option<Streaks>)
    ensures r.Some? ==> StreakRow(deviceId, r.value) in rows
    ensures r.None? <==> forall row :: row in rows ==> row.deviceId != deviceId
  {
    if rows == [] then None
    else if rows[0].deviceId == deviceId then Some(rows[0].streaks)
    else FindStreaks(rows[1..], deviceId)
  }

  /** The tables after `getOrCreateUsuario(deviceId)`: for a new device a
      user row, default goals and zero streaks are inserted, without
      looking at `metas` or `streaks` first. */
  function WithUser(t: UserTables, deviceId: string): UserTables
  {
    if deviceId in t.usuarios then t
    else UserTables(t.usuarios + [deviceId],
                    t.metas + [MetasRow(deviceId, DefaultMetas)],
                    t.streaks + [StreakRow(deviceId, DefaultStreaks)])
  }

  /** The tables after `getMetas(deviceId)`: a default row is inserted
      when the device has none. */
  function WithMetas(t: UserTables, deviceId: string): UserTables
  {
    if FindMetas(t.metas, deviceId).Some? then t
    else t.(metas := t.metas + [MetasRow(deviceId, DefaultMetas)])
  }

  /** The value `getMetas(deviceId)` returns. */
  function MetasOf(t: UserTables, deviceId: string): Metas
  {
    var found := FindMetas(t.metas, deviceId);
    if found.Some? then found.value else DefaultMetas
  }

  function WithStreaks(t: UserTables, deviceId: string): UserTables
  {
    if FindStreaks(t.streaks, deviceId).Some? then t
    else t.(streaks := t.streaks + [StreakRow(deviceId, DefaultStreaks)])
  }

  function StreaksOf(t: UserTables, deviceId: string): Streaks
  {
    var found := FindStreaks(t.streaks, deviceId);
    if found.Some? then found.value else DefaultStreaks
  }

  /** `UPDATE metas SET calorias = COALESCE($1, calorias), agua =
      COALESCE($2, agua) WHERE device_id = $3`, applied to every row of
      the device. */
  function MetasUpdated(rows: seq<MetasRow>, deviceId: string, calorias: Option<int>, agua: Option<int>): (r: seq<MetasRow>)
    ensures |r| == |rows|
    ensures forall k :: 0 <= k < |rows| ==> r[k].deviceId == rows[k].deviceId
    ensures forall k :: 0 <= k < |rows| && rows[k].deviceId != deviceId ==> r[k] == rows[k]
    ensures forall k :: 0 <= k < |rows| && rows[k].deviceId == deviceId ==>
      r[k].metas == Metas(Coalesce(calorias, rows[k].metas.calorias), Coalesce(agua, rows[k].metas.agua))
  {
    if rows == [] then []
    else
      var row := rows[0];
      var head := if row.deviceId == deviceId
        then MetasRow(deviceId, Metas(Coalesce(calorias, row.metas.calorias), Coalesce(agua, row.metas.agua)))
        else row;
      [head] + MetasUpdated(rows[1..], deviceId, calorias, agua)
  }

  function StreaksUpdated(rows: seq<StreakRow>, deviceId: string, calorias: Option<int>, agua: Option<int>, ambas: Option<int>): (r: seq<StreakRow>)
    ensures |r| == |rows|
    ensures forall k :: 0 <= k < |rows| ==> r[k].deviceId == rows[k].deviceId
    ensures forall k :: 0 <= k < |rows| && rows[k].deviceId != deviceId ==> r[k] == rows[k]
    ensures forall k :: 0 <= k < |rows| && rows[k].deviceId == deviceId ==>
      r[k].streaks == Streaks(Coalesce(calorias, rows[k].streaks.calorias), Coalesce(agua, rows[k].streaks.agua),
                              Coalesce(ambas, rows[k].streaks.ambas))
  {
    if rows == [] then []
    else
      var row := rows[0];
      var s := row.streaks;
      var head := if row.deviceId == deviceId
        then StreakRow(deviceId, Streaks(Coalesce(calorias, s.calorias), Coalesce(agua, s.agua), Coalesce(ambas, s.ambas)))
        else row;
      [head] + StreaksUpdated(rows[1..], deviceId, calorias, agua, ambas)
  }

  /** `getOrCreateUsuario` twice has the effect of once. */
  lemma WithUserIdempotent(t: UserTables, deviceId: string)
    ensures WithUser(WithUser(t, deviceId), deviceId) == WithUser(t, deviceId)
  {
  }

  /** A lookup finds the same row after rows are appended. */
  lemma {:induction false} FindMetasAppend(rows: seq<MetasRow>, extra: seq<MetasRow>, deviceId: string)
    requires FindMetas(rows, deviceId).Some?
    ensures FindMetas(rows + extra, deviceId) == FindMetas(rows, deviceId)
  {
    assert (rows + extra)[0] == rows[0];
    if rows[0].deviceId != deviceId {
      assert (rows + extra)[1..] == rows[1..] + extra;
      FindMetasAppend(rows[1..], extra, deviceId);
    }
  }

  lemma {:induction false} FindMetasAppendNew(rows: seq<MetasRow>, row: MetasRow)
    requires FindMetas(rows, row.deviceId).None?
    ensures FindMetas(rows + [row], row.deviceId) == Some(row.metas)
  {
    if rows != [] {
      assert (rows + [row])[1..] == rows[1..] + [row];
      FindMetasAppendNew(rows[1..], row);
    }
  }

  lemma {:induction false} FindStreaksAppend(rows: seq<StreakRow>, extra: seq<StreakRow>, deviceId: string)
    requires FindStreaks(rows, deviceId).Some?
    ensures FindStreaks(rows + extra, deviceId) == FindStreaks(rows, deviceId)
  {
    assert (rows + extra)[0] == rows[0];
    if rows[0].deviceId != deviceId {
      assert (rows + extra)[1..] == rows[1..] + extra;
      FindStreaksAppend(rows[1..], extra, deviceId);
    }
  }

  lemma {:induction false} FindStreaksAppendNew(rows: seq<StreakRow>, row: StreakRow)
    requires FindStreaks(rows, row.deviceId).None?
    ensures FindStreaks(rows + [row], row.deviceId) == Some(row.streaks)
  {
    if rows != [] {
      assert (rows + [row])[1..] == rows[1..] + [row];
      FindStreaksAppendNew(rows[1..], row);
    }
  }

  /** After `getOrCreateUsuario` the device is a user, and reading its
      goals and streaks gives what was stored before, or the defaults. */
  lemma AfterGetOrCreate(t: UserTables, deviceId: string)
    ensures var u := WithUser(t, deviceId);
      && deviceId in u.usuarios
      && MetasOf(u, deviceId) == MetasOf(t, deviceId)
      && StreaksOf(u, deviceId) == StreaksOf(t, deviceId)
  {
    if deviceId !in t.usuarios {
      var found := FindMetas(t.metas, deviceId);
      if found.Some? {
        FindMetasAppend(t.metas, [MetasRow(deviceId, DefaultMetas)], deviceId);
      } else {
        FindMetasAppendNew(t.metas, MetasRow(deviceId, DefaultMetas));
      }
      if FindStreaks(t.streaks, deviceId).Some? {
        FindStreaksAppend(t.streaks, [StreakRow(deviceId, DefaultStreaks)], deviceId);
      } else {
        FindStreaksAppendNew(t.streaks, StreakRow(deviceId, DefaultStreaks));
      }
    }
  }

  /** `getMetas` returns the stored goals, or inserts and returns 1600 / 4000;
      reading again returns the same and inserts nothing more. */
  lemma GetMetasLazyDefault(t: UserTables, deviceId: string)
    ensures FindMetas(t.metas, deviceId).None? ==> MetasOf(t, deviceId) == Metas(1600, 4000)
    ensures FindMetas(WithMetas(t, deviceId).metas, deviceId) == Some(MetasOf(t, deviceId))
    ensures WithMetas(WithMetas(t, deviceId), deviceId) == WithMetas(t, deviceId)
  {
    if FindMetas(t.metas, deviceId).None? {
      FindMetasAppendNew(t.metas, MetasRow(deviceId, DefaultMetas));
    }
  }

  /** `getStreaks` reads the stored streaks, or inserts and returns zeros. */
  lemma GetStreaksLazyDefault(t: UserTables, deviceId: string)
    ensures FindStreaks(t.streaks, deviceId).None? ==> StreaksOf(t, deviceId) == Streaks(0, 0, 0)
    ensures FindStreaks(WithStreaks(t, deviceId).streaks, deviceId) == Some(StreaksOf(t, deviceId))
    ensures WithStreaks(WithStreaks(t, deviceId), deviceId) == WithStreaks(t, deviceId)
  {
    if FindStreaks(t.streaks, deviceId).None? {
      FindStreaksAppendNew(t.streaks, StreakRow(deviceId, DefaultStreaks));
    }
  }

  /** The first row of the device after an update is the first row before, updated. */
  lemma {:induction false} FindMetasUpdated(rows: seq<MetasRow>, deviceId: string, calorias: Option<int>, agua: Option<int>, d: string)
    ensures var before := FindMetas(rows, d);
      var after := FindMetas(MetasUpdated(rows, deviceId, calorias, agua), d);
      && (before.None? <==> after.None?)
      && (before.Some? && d == deviceId ==>
            after == Some(Metas(Coalesce(calorias, before.value.calorias), Coalesce(agua, before.value.agua))))
      && (d != deviceId ==> after == before)
  {
    if rows != [] {
      var after := MetasUpdated(rows, deviceId, calorias, agua);
      FindMetasUpdated(rows[1..], deviceId, calorias, agua, d);
      assert after[1..] == MetasUpdated(rows[1..], deviceId, calorias, agua);
    }
  }

  lemma {:induction false} FindStreaksUpdated(rows: seq<StreakRow>, deviceId: string, calorias: Option<int>, agua: Option<int>, ambas: Option<int>, d: string)
    ensures var before := FindStreaks(rows, d);
      var after := FindStreaks(StreaksUpdated(rows, deviceId, calorias, agua, ambas), d);
      && (before.None? <==> after.None?)
      && (before.Some? && d == deviceId ==>
            after == Some(Streaks(Coalesce(calorias, before.value.calorias), Coalesce(agua, before.value.agua),
                                  Coalesce(ambas, before.value.ambas))))
      && (d != deviceId ==> after == before)
  {
    if rows != [] {
      var after := StreaksUpdated(rows, deviceId, calorias, agua, ambas);
      FindStreaksUpdated(rows[1..], deviceId, calorias, agua, ambas, d);
      assert after[1..] == StreaksUpdated(rows[1..], deviceId, calorias, agua, ambas);
    }
  }

  /** The goals `updateMetas` returns: each given field replaces the
      stored one and each omitted field keeps it; a device without a goals
      row is not updated and gets the lazily created defaults. Other
      devices' goals are unchanged. */
  lemma UpdateMetasResult(t: UserTables, deviceId: string, calorias: Option<int>, agua: Option<int>, other: string)
    requires other != deviceId
    ensures var u := t.(metas := MetasUpdated(t.metas, deviceId, calorias, agua));
      && (FindMetas(t.metas, deviceId).Some? ==>
            MetasOf(u, deviceId) == Metas(Coalesce(calorias, MetasOf(t, deviceId).calorias),
                                          Coalesce(agua, MetasOf(t, deviceId).agua)))
      && (FindMetas(t.metas, deviceId).None? ==> MetasOf(u, deviceId) == DefaultMetas)
      && MetasOf(u, other) == MetasOf(t, other)
  {
    FindMetasUpdated(t.metas, deviceId, calorias, agua, deviceId);
    FindMetasUpdated(t.metas, deviceId, calorias, agua, other);
  }

  /** The same partial-update rule for `updateStreaks`. */
  lemma UpdateStreaksResult(t: UserTables, deviceId: string, calorias: Option<int>, agua: Option<int>, ambas: Option<int>, other: string)
    requires other != deviceId
    ensures var u := t.(streaks := StreaksUpdated(t.streaks, deviceId, calorias, agua, ambas));
      var s := StreaksOf(t, deviceId);
      && (FindStreaks(t.streaks, deviceId).Some? ==>
            StreaksOf(u, deviceId) == Streaks(Coalesce(calorias, s.calorias), Coalesce(agua, s.agua), Coalesce(ambas, s.ambas)))
      && (FindStreaks(t.streaks, deviceId).None? ==> StreaksOf(u, deviceId) == DefaultStreaks)
      && StreaksOf(u, other) == StreaksOf(t, other)
  {
    FindStreaksUpdated(t.streaks, deviceId, calorias, agua, ambas, deviceId);
    FindStreaksUpdated(t.streaks, deviceId, calorias, agua, ambas, other);
  }

  /** The three tables as a mutable store. */
  class UserStore {
    var usuarios: seq<string>
    var metas: seq<MetasRow>
    var streaks: seq<StreakRow>

    function Tables(): UserTables
      reads this
    {
      UserTables(usuarios, metas, streaks)
    }

    constructor ()
      ensures Tables() == UserTables([], [], [])
    {
      usuarios := [];
      metas := [];
      streaks := [];
    }

    /** `getOrCreateUsuario`: returns the user, creating it with default
        goals and streaks when the device is new. */
    method GetOrCreateUsuario(deviceId: string) returns (user: string)
      modifies this
      ensures Tables() == WithUser(old(Tables()), deviceId)
      ensures user == deviceId && user in usuarios
    {
      if deviceId !in usuarios {
        usuarios := usuarios + [deviceId];
        metas := metas + [MetasRow(deviceId, DefaultMetas)];
        streaks := streaks + [StreakRow(deviceId, DefaultStreaks)];
      }
      user := deviceId;
    }

    /** `getMetas`. */
    method GetMetas(deviceId: string) returns (m: Metas)
      modifies this
      ensures Tables() == WithMetas(old(Tables()), deviceId)
      ensures m == MetasOf(old(Tables()), deviceId)
    {
      var found := FindMetas(metas, deviceId);
      if found.None? {
        metas := metas + [MetasRow(deviceId, DefaultMetas)];
        m := DefaultMetas;
      } else {
        m := found.value;
      }
    }

    /** `updateMetas`: the partial update, then `getMetas`. */
    method UpdateMetas(deviceId: string, calorias: Option<int>, agua: Option<int>) returns (m: Metas)
      modifies this
      ensures var u := old(Tables()).(metas := MetasUpdated(old(metas), deviceId, calorias, agua));
        Tables() == WithMetas(u, deviceId) && m == MetasOf(u, deviceId)
    {
      metas := MetasUpdated(metas, deviceId, calorias, agua);
      m := GetMetas(deviceId);
    }

    /** `getStreaks`. */
    method GetStreaks(deviceId: string) returns (s: Streaks)
      modifies this
      ensures Tables() == WithStreaks(old(Tables()), deviceId)
      ensures s == StreaksOf(old(Tables()), deviceId)
    {
      var found := FindStreaks(streaks, deviceId);
      if found.None? {
        streaks := streaks + [StreakRow(deviceId, DefaultStreaks)];
        s := DefaultStreaks;
      } else {
        s := found.value;
      }
    }

    /** `updateStreaks`: the partial update, then `getStreaks`. */
    method UpdateStreaks(deviceId: string, calorias: Option<int>, agua: Option<int>, ambas: Option<int>) returns (s: Streaks)
      modifies this
      ensures var u := old(Tables()).(streaks := StreaksUpdated(old(streaks), deviceId, calorias, agua, ambas));
        Tables() == WithStreaks(u, deviceId) && s == StreaksOf(u, deviceId)
    {
      streaks := StreaksUpdated(streaks, deviceId, calorias, agua, ambas);
      s := GetStreaks(deviceId);
    }
  }
}
