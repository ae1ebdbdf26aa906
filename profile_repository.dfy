/** The `perfil` table: at most one profile per device, written by an
    upsert (`INSERT ... ON CONFLICT (device_id) DO UPDATE`) and read by
    device. */
module ProfileRepository {
  import opened Js

  /** The six profile fields. The numbers are what `parseInt` /
      `parseFloat` produced, `Absent` standing for `NaN`. */
  datatype Perfil = Perfil(
    idade: JsNum,
    genero: string,
    altura: JsNum,
    peso: JsNum,
    atividade: string,
    objetivo: string)

  datatype ProfileRow = ProfileRow(deviceId: string, perfil: Perfil)

  /** The `ON CONFLICT (device_id)` target: no two rows share a device. */
  ghost predicate DevicesUnique(rows: seq<ProfileRow>)
  {
    forall i, j :: 0 <= i < j < |rows| ==> rows[i].deviceId != rows[j].deviceId
  }

  /** `getPerfil(deviceId)`: the device's profile, or `null`. */
  function GetPerfil(rows: seq<ProfileRow>, deviceId: string): (r: Option<Perfil>)
    ensures r.Some? ==> ProfileRow(deviceId, r.value) in rows
    ensures r.None? <==> forall row :: row in rows ==> row.deviceId != deviceId
  {
    if rows == [] then None
    else if rows[0].deviceId == deviceId then Some(rows[0].perfil)
    else GetPerfil(rows[1..], deviceId)
  }

  /** The table after `upsertPerfil(deviceId, p)`: the device's row has
      all six fields overwritten in place, or a row is appended when the
      device has none. */
  function Upserted(rows: seq<ProfileRow>, deviceId: string, p: Perfil): (r: seq<ProfileRow>)
    ensures |r| == |rows| || |r| == |rows| + 1
  {
    if rows == [] then [ProfileRow(deviceId, p)]
    else if rows[0].deviceId == deviceId then [ProfileRow(deviceId, p)] + rows[1..]
    else [rows[0]] + Upserted(rows[1..], deviceId, p)
  }

  /** The number of rows a device has. */
  function RowsOf(rows: seq<ProfileRow>, deviceId: string): nat
  {
    if rows == [] then 0
    else (if rows[0].deviceId == deviceId then 1 else 0) + RowsOf(rows[1..], deviceId)
  }

  /** Reading a device's profile after upserting it gives exactly the
      upserted fields. */
  lemma {:induction false} GetAfterUpsert(rows: seq<ProfileRow>, deviceId: string, p: Perfil)
    ensures GetPerfil(Upserted(rows, deviceId, p), deviceId) == Some(p)
  {
    if rows != [] && rows[0].deviceId != deviceId {
      GetAfterUpsert(rows[1..], deviceId, p);
    }
  }

  /** An upsert leaves every other device's profile as it was. */
  lemma {:induction false} UpsertLeavesOthers(rows: seq<ProfileRow>, deviceId: string, p: Perfil, other: string)
    requires other != deviceId
    ensures GetPerfil(Upserted(rows, deviceId, p), other) == GetPerfil(rows, other)
  {
    if rows != [] && rows[0].deviceId != deviceId {
      UpsertLeavesOthers(rows[1..], deviceId, p, other);
    }
  }

  /** An upsert creates a row exactly when the device had none, and
      otherwise keeps the number of rows. */
  lemma {:induction false} UpsertCreatesOnlyWhenMissing(rows: seq<ProfileRow>, deviceId: string, p: Perfil)
    ensures GetPerfil(rows, deviceId).None? <==> |Upserted(rows, deviceId, p)| == |rows| + 1
  {
    if rows != [] && rows[0].deviceId != deviceId {
      UpsertCreatesOnlyWhenMissing(rows[1..], deviceId, p);
    }
  }

  lemma {:induction false} UpsertedDevices(rows: seq<ProfileRow>, deviceId: string, p: Perfil)
    ensures forall row :: row in Upserted(rows, deviceId, p) ==> row.deviceId == deviceId || row in rows
  {
    if rows != [] && rows[0].deviceId != deviceId {
      UpsertedDevices(rows[1..], deviceId, p);
    }
  }

  /** An upsert keeps devices unique. */
  lemma {:induction false} UpsertKeepsDevicesUnique(rows: seq<ProfileRow>, deviceId: string, p: Perfil)
    requires DevicesUnique(rows)
    ensures DevicesUnique(Upserted(rows, deviceId, p))
  {
    if rows != [] {
      var r := Upserted(rows, deviceId, p);
      if rows[0].deviceId == deviceId {
        forall i, j | 0 <= i < j < |r|
          ensures r[i].deviceId != r[j].deviceId
        {
          assert r[j] == rows[j];
          if i > 0 {
            assert r[i] == rows[i];
          }
        }
      } else {
        UpsertKeepsDevicesUnique(rows[1..], deviceId, p);
        UpsertedDevices(rows[1..], deviceId, p);
        var tail := Upserted(rows[1..], deviceId, p);
        assert r == [rows[0]] + tail;
        forall i, j | 0 <= i < j < |r|
          ensures r[i].deviceId != r[j].deviceId
        {
          if i == 0 {
            assert r[j] in tail;
            if r[j].deviceId != deviceId {
              var k :| 0 <= k < |rows[1..]| && rows[1..][k] == r[j];
              assert rows[k + 1] == r[j];
            }
          } else {
            assert r[i] == tail[i - 1] && r[j] == tail[j - 1];
          }
        }
      }
    }
  }

  /** After an upsert the device has exactly one row. */
  lemma {:induction false} ExactlyOneRowAfterUpsert(rows: seq<ProfileRow>, deviceId: string, p: Perfil)
    requires DevicesUnique(rows)
    ensures RowsOf(Upserted(rows, deviceId, p), deviceId) == 1
  {
    if rows != [] {
      if rows[0].deviceId == deviceId {
        NoOtherRows(rows[1..], deviceId);
        assert ([ProfileRow(deviceId, p)] + rows[1..])[1..] == rows[1..];
      } else {
        ExactlyOneRowAfterUpsert(rows[1..], deviceId, p);
      }
    }
  }

  lemma {:induction false} NoOtherRows(rows: seq<ProfileRow>, deviceId: string)
    requires forall row :: row in rows ==> row.deviceId != deviceId
    ensures RowsOf(rows, deviceId) == 0
  {
    if rows != [] {
      NoOtherRows(rows[1..], deviceId);
    }
  }

  /** Upserting the same fields twice is the same as upserting them once. */
  lemma {:induction false} UpsertIdempotent(rows: seq<ProfileRow>, deviceId: string, p: Perfil)
    ensures Upserted(Upserted(rows, deviceId, p), deviceId, p) == Upserted(rows, deviceId, p)
  {
    if rows != [] {
      if rows[0].deviceId == deviceId {
        assert ([ProfileRow(deviceId, p)] + rows[1..])[1..] == rows[1..];
      } else {
        UpsertIdempotent(rows[1..], deviceId, p);
        assert ([rows[0]] + Upserted(rows[1..], deviceId, p))[1..] == Upserted(rows[1..], deviceId, p);
      }
    }
  }

  /** The `perfil` table as a mutable store. */
  class ProfileStore {
    var rows: seq<ProfileRow>

    ghost predicate Valid()
      reads this
    {
      DevicesUnique(rows)
    }

    constructor ()
      ensures Valid() && rows == []
    {
      rows := [];
    }

    /** `upsertPerfil`: writes the profile and returns the stored fields. */
    method UpsertPerfil(deviceId: string, p: Perfil) returns (stored: Perfil)
      requires Valid()
      modifies this
      ensures Valid()
      ensures rows == Upserted(old(rows), deviceId, p)
      ensures stored == p
    {
      UpsertKeepsDevicesUnique(rows, deviceId, p);
      rows := Upserted(rows, deviceId, p);
      stored := p;
    }
  }
}
