/** The goals editor: the calorie and water goals being edited, the two
    clamped input handlers, the four presets and the water preset
    buttons, and the body it saves with `POST /api/metas`. */
module GoalsPage {
  import opened Js
  import opened Text
  import U = UserRepository
  import CalorieEngine
  import Server

  /** `Math.max(0, parseInt(text) || 0)`: what an input handler stores. */
  function InputValue(text: string): (r: int)
    ensures r >= 0
    ensures ParseInt(text).Some? && ParseInt(text).value >= 0 ==> r == ParseInt(text).value
    ensures ParseInt(text).None? || ParseInt(text).value < 0 ==> r == 0
  {
    var value := match ParseInt(text) case Some(n) => OrInt(n, 0) case None => 0;
    Max(0, value)
  }

  /** Worked inputs: "250" is kept, text that is not a number becomes 0. */
  lemma InputValueExamples()
    ensures InputValue("250") == 250 && InputValue("abc") == 0 && InputValue("") == 0
  {
    ParseIntExamples();
  }

  /** `presets[tipo]`: the pair of a known preset, nothing otherwise. */
  function Preset(tipo: string): (r: Option<U.Metas>)
    ensures tipo == "emagrecimento" ==> r == Some(U.Metas(1200, 3000))
    ensures tipo == "manutencao" ==> r == Some(U.Metas(2000, 4000))
    ensures tipo == "ganho" ==> r == Some(U.Metas(2500, 4000))
    ensures tipo == "ativo" ==> r == Some(U.Metas(2200, 4500))
    ensures r.None? <==> tipo !in {"emagrecimento", "manutencao", "ganho", "ativo"}
  {
    if tipo == "emagrecimento" then Some(U.Metas(1200, 3000))
    else if tipo == "manutencao" then Some(U.Metas(2000, 4000))
    else if tipo == "ganho" then Some(U.Metas(2500, 4000))
    else if tipo == "ativo" then Some(U.Metas(2200, 4500))
    else None
  }

  /** The amounts of the water preset buttons. */
  const AguaPresets: seq<int> := [2000, 3000, 4000, 5000]

  /** The goals as the page holds them while they are edited. */
  class GoalsEditor {
    var metas: U.Metas

    /** Before the stored goals arrive the page shows 1600 / 4000. */
    constructor ()
      ensures metas == U.Metas(1600, 4000)
    {
      metas := U.Metas(1600, 4000);
    }

    /** `loadMetas`: the fetched goals replace the shown ones; a failed
        fetch leaves them as they were. */
    method Load(fetched: Result<U.Metas>)
      modifies this
      ensures fetched.Ok? ==> metas == fetched.value
      ensures fetched.Err? ==> metas == old(metas)
    {
      if fetched.Ok? {
        metas := fetched.value;
      }
    }

    /** `handleCaloriasChange`: only the calorie goal changes. */
    method CaloriasChange(text: string)
      modifies this
      ensures metas == U.Metas(InputValue(text), old(metas).agua)
      ensures metas.calorias >= 0
    {
      metas := metas.(calorias := InputValue(text));
    }

    /** `handleAguaChange`: only the water goal changes. */
    method AguaChange(text: string)
      modifies this
      ensures metas == U.Metas(old(metas).calorias, InputValue(text))
      ensures metas.agua >= 0
    {
      metas := metas.(agua := InputValue(text));
    }

    /** `aplicarPreset`: `{ ...prev, ...presets[tipo] }`, so a known preset
        sets both goals and an unknown name (spreading `undefined`)
        changes nothing. */
    method AplicarPreset(tipo: string)
      modifies this
      ensures Preset(tipo).Some? ==> metas == Preset(tipo).value
      ensures Preset(tipo).None? ==> metas == old(metas)
    {
      var p := Preset(tipo);
      if p.Some? {
        metas := p.value;
      }
    }

    /** A water preset button: only the water goal changes. */
    method AguaPreset(k: nat)
      requires k < |AguaPresets|
      modifies this
      ensures metas == U.Metas(old(metas).calorias, AguaPresets[k])
    {
      metas := metas.(agua := AguaPresets[k]);
    }

    /** `handleSave`: the goals go out as JSON numbers. */
    function SavedBody(): (Field, Field)
      reads this
    {
      (Number(metas.calorias as real), Number(metas.agua as real))
    }
  }

  /** A whole number sent as JSON arrives as itself through `parseInt`. */
  lemma WholeNumberParses(n: int)
    ensures IntOf(Number(n as real)) == Some(n)
  {
    if n >= 0 {
      assert (n as real).Floor == n;
    } else {
      assert -(n as real) == (-n) as real;
      assert ((-n) as real).Floor == -n;
    }
  }

  /** Saved goals are the goals the server stores, and the goals the
      page reads back on its next load: unchanged when non-zero, and a
      saved 0 (which the clamped inputs allow) comes back as 1600 or
      4000. */
  lemma SavedGoalsReadBack(t: U.UserTables, deviceId: string, metas: U.Metas)
    requires deviceId in t.usuarios ==> U.FindMetas(t.metas, deviceId).Some?
    ensures var c := IntOf(Number(metas.calorias as real));
      var a := IntOf(Number(metas.agua as real));
      var t1 := U.WithUser(t, deviceId);
      var u := t1.(metas := U.MetasUpdated(t1.metas, deviceId, c, a));
      var stored := U.MetasOf(U.WithMetas(u, deviceId), deviceId);
      && stored == metas
      && CalorieEngine.CalorieGoal(stored) == (if metas.calorias != 0 then metas.calorias else 1600)
      && CalorieEngine.WaterGoal(stored) == (if metas.agua != 0 then metas.agua else 4000)
  {
    WholeNumberParses(metas.calorias);
    WholeNumberParses(metas.agua);
    Server.PostedGoalsAreRead(t, deviceId, metas.calorias, metas.agua);
  }

  /** A preset pair, once saved, is read back unchanged. */
  lemma PresetsReadBack(t: U.UserTables, deviceId: string, tipo: string)
    requires deviceId in t.usuarios ==> U.FindMetas(t.metas, deviceId).Some?
    requires Preset(tipo).Some?
    ensures var m := Preset(tipo).value;
      var t1 := U.WithUser(t, deviceId);
      var u := t1.(metas := U.MetasUpdated(t1.metas, deviceId, IntOf(Number(m.calorias as real)), IntOf(Number(m.agua as real))));
      var stored := U.MetasOf(U.WithMetas(u, deviceId), deviceId);
      CalorieEngine.CalorieGoal(stored) == m.calorias && CalorieEngine.WaterGoal(stored) == m.agua
  {
    SavedGoalsReadBack(t, deviceId, Preset(tipo).value);
  }
}
