/**
 * The configuration store of `LLMService`: a JavaScript `Map` from
 * configuration id to `LLMConfig`, persisted as the array of its values under
 * the storage key `llmConfigs` after every change.
 */
module ConfigStore {
  import opened Wrappers
  import opened Seqs

  /** One configured provider endpoint. An empty or absent `baseUrl` selects the default endpoint. */
  datatype LLMConfig = LLMConfig(
    id: string,
    name: string,
    apiKey: string,
    baseUrl: Option<string>,
    model: string,
    maxTokens: int,
    temperature: real,
    costPer1kTokens: real)

  /**
   * The contents of a JavaScript `Map<string, LLMConfig>`: `order` lists the
   * keys in insertion order, `byId` gives the value of each key.
   */
  datatype ConfigTable = ConfigTable(order: seq<string>, byId: map<string, LLMConfig>)
  {
    /** Keys are listed once each, exactly the keys of `byId`, and every config is stored under its own id. */
    ghost predicate Valid()
    {
      && NoDuplicates(order)
      && (forall id :: id in order <==> id in byId)
      && (forall id :: id in byId ==> byId[id].id == id)
    }

    /** `Map.get`. */
    function Get(id: string): (r: Option<LLMConfig>)
      requires Valid()
      ensures r.Some? <==> id in order
      ensures r.Some? ==> r.value.id == id
    {
      if id in byId then Some(byId[id]) else None
    }

    /** `Map.set(config.id, config)`: a new key goes to the end, an existing key keeps its place. */
    function Set(config: LLMConfig): (r: ConfigTable)
      requires Valid()
      ensures r.Valid()
      ensures r.Get(config.id) == Some(config)
      ensures forall id :: id != config.id ==> r.Get(id) == Get(id)
      ensures config.id in order ==> r.order == order
      ensures config.id !in order ==> r.order == order + [config.id]
    {
      if config.id in byId then
        ConfigTable(order, byId[config.id := config])
      else
        AppendKeepsNoDuplicates(order, config.id);
        ConfigTable(order + [config.id], byId[config.id := config])
    }

    /** `Map.delete(id)`: the key leaves the order, the other keys keep theirs; an absent key is no error. */
    function Delete(id: string): (r: ConfigTable)
      requires Valid()
      ensures r.Valid()
      ensures r.Get(id) == None
      ensures forall other :: other != id ==> r.Get(other) == Get(other)
      ensures r.order == Without(order, id)
    {
      WithoutKeepsNoDuplicates(order, id);
      ConfigTable(Without(order, id), byId - {id})
    }

    /** `Array.from(map.values())`: the stored configs in insertion order of their ids. */
    function Values(): (r: seq<LLMConfig>)
      requires Valid()
      ensures |r| == |order|
      ensures forall i :: 0 <= i < |r| ==> r[i] == byId[order[i]] && r[i].id == order[i]
      ensures forall c :: c in r <==> Get(c.id) == Some(c)
    {
      ValuesOf(order, byId)
    }
  }

  /** The empty `Map`. */
  const Empty: ConfigTable := ConfigTable([], map[])

  /** The values of `m` listed in the order of `keys`. */
  function ValuesOf(keys: seq<string>, m: map<string, LLMConfig>): (r: seq<LLMConfig>)
    requires forall k :: k in keys ==> k in m
    ensures |r| == |keys|
    ensures forall i :: 0 <= i < |r| ==> r[i] == m[keys[i]]
  {
    if keys == [] then [] else [m[keys[0]]] + ValuesOf(keys[1..], m)
  }

  /** Deleting twice leaves the same table as deleting once. */
  lemma DeleteIsIdempotent(t: ConfigTable, id: string)
    requires t.Valid()
    ensures t.Delete(id).Delete(id) == t.Delete(id)
  {
    WithoutIdempotent(t.order, id);
  }

  /** The table read from a persisted array: each config is set in turn under its id, so a later duplicate overwrites an earlier one. */
  function Load(saved: seq<LLMConfig>): (r: ConfigTable)
    ensures r.Valid()
  {
    if saved == [] then Empty
    else Load(saved[..|saved| - 1]).Set(saved[|saved| - 1])
  }

  /** A loaded table holds exactly the ids of the persisted array. */
  lemma {:induction false} LoadHasSavedIds(saved: seq<LLMConfig>, id: string)
    ensures Load(saved).Get(id).Some? <==> exists c :: c in saved && c.id == id
  {
    if saved != [] {
      var init := saved[..|saved| - 1];
      LoadHasSavedIds(init, id);
      assert saved == init + [saved[|saved| - 1]];
    }
  }

  /** The config stored under an id is its last occurrence in the persisted array. */
  lemma {:induction false} LoadLastWins(saved: seq<LLMConfig>, i: nat)
    requires i < |saved|
    requires forall j :: i < j < |saved| ==> saved[j].id != saved[i].id
    ensures Load(saved).Get(saved[i].id) == Some(saved[i])
  {
    if i < |saved| - 1 {
      var init := saved[..|saved| - 1];
      LoadLastWins(init, i);
    }
  }

  /** Reloading the array a table was persisted as gives the table back. */
  lemma {:induction false} LoadValuesRoundTrip(t: ConfigTable)
    requires t.Valid()
    ensures Load(t.Values()) == t
  {
    var vs, n := t.Values(), |t.order|;
    LoadPrefixes(t, n);
    assert vs[..n] == vs;
    PrefixWhole(t);
  }

  /** All keys of `t` make `t` itself. */
  lemma PrefixWhole(t: ConfigTable)
    requires t.Valid()
    ensures Prefix(t, |t.order|) == t
  {
  }

  /** The table holding the first `n` keys of `t` with their values. */
  function Prefix(t: ConfigTable, n: nat): ConfigTable
    requires t.Valid() && n <= |t.order|
  {
    ConfigTable(t.order[..n], map id | id in t.order[..n] :: t.byId[id])
  }

  /** Loading the first `n` values of `t` rebuilds the first `n` keys of `t`. */
  lemma {:induction false} LoadPrefixes(t: ConfigTable, n: nat)
    requires t.Valid() && n <= |t.order|
    ensures Load(t.Values()[..n]) == Prefix(t, n)
  {
    var vs := t.Values();
    if n == 0 {
      assert t.order[..0] == [];
      assert vs[..0] == [];
    } else {
      var pre := vs[..n];
      var init, last := pre[..|pre| - 1], pre[|pre| - 1];
      assert init == vs[..n - 1];
      assert last == t.byId[t.order[n - 1]];
      assert Load(pre) == Load(init).Set(last);
      LoadPrefixes(t, n - 1);
      PrefixGrows(t, n);
    }
  }

  /** Setting the `n`-th value into the table of the first `n - 1` keys gives the table of the first `n` keys. */
  lemma PrefixGrows(t: ConfigTable, n: nat)
    requires t.Valid() && 0 < n <= |t.order|
    ensures Prefix(t, n - 1).Valid()
    ensures Prefix(t, n - 1).Set(t.byId[t.order[n - 1]]) == Prefix(t, n)
  {
    var k := t.order[n - 1];
    var prev := Prefix(t, n - 1);
    assert forall j :: 0 <= j < n - 1 ==> t.order[..n - 1][j] == t.order[j];
    assert k !in t.order[..n - 1];
    assert t.order[..n] == t.order[..n - 1] + [k];
    assert NoDuplicates(prev.order) by {
      forall i, j | 0 <= i < j < |prev.order| ensures prev.order[i] != prev.order[j] {
        assert prev.order[i] == t.order[i] && prev.order[j] == t.order[j];
      }
    }
    assert prev.byId[k := t.byId[k]] == Prefix(t, n).byId;
  }

  class LLMService {
    /** The in-memory `Map` of configurations. */
    var configs: ConfigTable
    /** The persisted snapshot under the key `llmConfigs`; `None` when the key is absent. */
    var stored: Option<seq<LLMConfig>>

    ghost predicate Valid()
      reads this
    {
      configs.Valid()
    }

    /** Builds the service over the persisted array `saved` and loads it (the singleton's first use); nothing is written. */
    constructor (saved: Option<seq<LLMConfig>>)
      ensures Valid()
      ensures configs == (if saved.Some? then Load(saved.value) else Empty)
      ensures stored == saved
    {
      var table := Empty;
      if saved.Some? {
        var s := saved.value;
        var i := 0;
        while i < |s|
          invariant 0 <= i <= |s|
          invariant table == Load(s[..i])
        {
          assert s[..i + 1][..i] == s[..i];
          table := table.Set(s[i]);
          i := i + 1;
        }
        assert s[..i] == s;
      }
      configs := table;
      stored := saved;
    }

    /** `getConfig`: the config stored under `id`, or nothing. */
    function GetConfig(id: string): (r: Option<LLMConfig>)
      reads this
      requires Valid()
      ensures r.Some? ==> r.value.id == id
      ensures r.Some? <==> id in configs.order
    {
      configs.Get(id)
    }

    /** `getAllConfigs`: every stored config once, in insertion order of the ids. */
    function GetAllConfigs(): (r: seq<LLMConfig>)
      reads this
      requires Valid()
      ensures |r| == |configs.order|
      ensures forall i :: 0 <= i < |r| ==> r[i] == configs.byId[configs.order[i]]
      ensures forall c :: c in r <==> GetConfig(c.id) == Some(c)
    {
      configs.Values()
    }

    /** `updateConfig`: inserts or replaces the config under its id, then persists. */
    method UpdateConfig(config: LLMConfig)
      requires Valid()
      modifies this
      ensures Valid()
      ensures configs == old(configs).Set(config)
      ensures GetConfig(config.id) == Some(config)
      ensures forall id :: id != config.id ==> GetConfig(id) == old(GetConfig(id))
      ensures stored == Some(GetAllConfigs())
    {
      configs := configs.Set(config);
      SaveConfigs();
    }

    /** `deleteConfig`: removes the config under `id` if there is one, then persists. */
    method DeleteConfig(id: string)
      requires Valid()
      modifies this
      ensures Valid()
      ensures configs == old(configs).Delete(id)
      ensures GetConfig(id) == None
      ensures forall other :: other != id ==> GetConfig(other) == old(GetConfig(other))
      ensures stored == Some(GetAllConfigs())
    {
      configs := configs.Delete(id);
      SaveConfigs();
    }

    /** `saveConfigs`: persists the array of all configs. */
    method SaveConfigs()
      requires Valid()
      modifies this`stored
      ensures stored == Some(GetAllConfigs())
    {
      stored := Some(GetAllConfigs());
    }
  }

  /** Client view: after deleting an id twice, the second call changes nothing and raises nothing. */
  method DeleteTwice(s: LLMService, id: string)
    requires s.Valid()
    modifies s
    ensures s.Valid()
    ensures s.configs == old(s.configs).Delete(id)
    ensures s.GetConfig(id) == None
  {
    s.DeleteConfig(id);
    s.DeleteConfig(id);
    DeleteIsIdempotent(old(s.configs), id);
  }
}
