/**
 * The pricing table of `LLMPricingService`: per-model prices for 1,000 input
 * and 1,000 output tokens, seeded with a built-in default table, persisted
 * under the storage key `llmPrices`, and refreshed at most once per 24 hours.
 *
 * Prices and costs are exact reals. The wall clock is read twice per refresh:
 * `now` (milliseconds) for the staleness test, and `doneAt` once the awaited
 * fetch has finished. The external price fetch is the flag `fetchOk`.
 */
module PricingTable {
  import opened Wrappers

  /** One row of the table. `lastUpdated` is a timestamp in milliseconds. */
  datatype Pricing = Pricing(model: string, inputPrice: real, outputPrice: real, lastUpdated: int)

  /** Minimum age of the last successful refresh before a new one is attempted: 24 hours in milliseconds. */
  const UpdateInterval: int := 24 * 60 * 60 * 1000

  /** The six models the table is seeded with. */
  const DefaultModels: set<string> :=
    {"gpt-4", "gpt-4-32k", "gpt-3.5-turbo", "gpt-3.5-turbo-16k", "claude-2", "claude-instant-1"}

  /** The built-in price list, in the order it is written into the table, all stamped with `now`. */
  function DefaultEntries(now: int): seq<(string, Pricing)>
  {
    [ ("gpt-4", Pricing("gpt-4", 0.03, 0.06, now)),
      ("gpt-4-32k", Pricing("gpt-4-32k", 0.06, 0.12, now)),
      ("gpt-3.5-turbo", Pricing("gpt-3.5-turbo", 0.0015, 0.002, now)),
      ("gpt-3.5-turbo-16k", Pricing("gpt-3.5-turbo-16k", 0.003, 0.004, now)),
      ("claude-2", Pricing("claude-2", 0.008, 0.024, now)),
      ("claude-instant-1", Pricing("claude-instant-1", 0.0008, 0.0024, now)) ]
  }

  /** The table obtained by setting the entries one after the other; a later key overwrites an earlier one. */
  function TableOf(entries: seq<(string, Pricing)>): map<string, Pricing>
  {
    if entries == [] then map[]
    else TableOf(entries[..|entries| - 1])[entries[|entries| - 1].0 := entries[|entries| - 1].1]
  }

  /** The seeded table: exactly the six default models, each keyed by its own name and stamped with `now`. */
  function DefaultTable(now: int): (t: map<string, Pricing>)
    ensures t.Keys == DefaultModels
    ensures forall m :: m in t ==> t[m].model == m && t[m].lastUpdated == now
    ensures forall m :: m in t ==> 0.0 < t[m].inputPrice < t[m].outputPrice
    ensures t["gpt-4"] == Pricing("gpt-4", 0.03, 0.06, now)
  {
    var e := DefaultEntries(now);
    assert TableOf(e[..1]) == map[e[0].0 := e[0].1] by { assert e[..1][..0] == []; }
    assert TableOf(e[..2]) == TableOf(e[..1])[e[1].0 := e[1].1] by { assert e[..2][..1] == e[..1]; }
    assert TableOf(e[..3]) == TableOf(e[..2])[e[2].0 := e[2].1] by { assert e[..3][..2] == e[..2]; }
    assert TableOf(e[..4]) == TableOf(e[..3])[e[3].0 := e[3].1] by { assert e[..4][..3] == e[..3]; }
    assert TableOf(e[..5]) == TableOf(e[..4])[e[4].0 := e[4].1] by { assert e[..5][..4] == e[..4]; }
    assert TableOf(e) == TableOf(e[..5])[e[5].0 := e[5].1] by { assert e[..5] == e[..|e| - 1]; }
    TableOf(e)
  }

  /** Whether the last successful refresh is missing or older than the update interval (strictly). */
  predicate IsStale(lastUpdate: Option<int>, now: int)
  {
    lastUpdate.None? || now - lastUpdate.value > UpdateInterval
  }

  /**
   * The refresh timestamp after one call to `updatePrices` that tests staleness
   * at `now` and, if it fetches, finishes at `doneAt`; the fetch succeeds iff `fetchOk`.
   */
  function NextLastUpdate(lastUpdate: Option<int>, now: int, doneAt: int, fetchOk: bool): Option<int>
  {
    if IsStale(lastUpdate, now) && fetchOk then Some(doneAt) else lastUpdate
  }

  /** A refresh that succeeded and finished at `doneAt` suppresses every fetch for the next 24 hours after `doneAt`. */
  lemma SuccessSuppressesFetch(lastUpdate: Option<int>, t1: int, doneAt: int, t2: int)
    requires IsStale(lastUpdate, t1)
    requires t2 <= doneAt + UpdateInterval
    ensures NextLastUpdate(lastUpdate, t1, doneAt, true) == Some(doneAt)
    ensures !IsStale(NextLastUpdate(lastUpdate, t1, doneAt, true), t2)
  {
  }

  /**
   * Two calls within 24 hours of each other, one after the other, fetch at most
   * once when the first fetch succeeds, since it finishes no earlier than it began.
   */
  lemma AtMostOneFetchPerInterval(lastUpdate: Option<int>, t1: int, doneAt: int, t2: int)
    requires t1 <= doneAt
    requires t1 <= t2 <= t1 + UpdateInterval
    ensures !(IsStale(lastUpdate, t1) && IsStale(NextLastUpdate(lastUpdate, t1, doneAt, true), t2))
  {
  }

  /** A failed fetch does not reset the clock: any later call fetches again. */
  lemma FailedFetchIsRetried(lastUpdate: Option<int>, t1: int, doneAt: int, t2: int)
    requires IsStale(lastUpdate, t1)
    requires t1 <= t2
    ensures NextLastUpdate(lastUpdate, t1, doneAt, false) == lastUpdate
    ensures IsStale(NextLastUpdate(lastUpdate, t1, doneAt, false), t2)
  {
  }

  /** The entries of `m` whose keys are in `keys`. */
  function Restrict(m: map<string, Pricing>, keys: set<string>): map<string, Pricing>
  {
    map k | k in keys && k in m :: m[k]
  }

  /** Copying one more entry of `saved` extends the copied part by that entry. */
  lemma RestrictGrows(base: map<string, Pricing>, saved: map<string, Pricing>, done: set<string>, k: string)
    requires k in saved
    ensures (base + Restrict(saved, done))[k := saved[k]] == base + Restrict(saved, done + {k})
  {
  }

  /** The table after the persisted snapshot, if any, has been copied into `base`. */
  function Loaded(base: map<string, Pricing>, stored: Option<map<string, Pricing>>): map<string, Pricing>
  {
    if stored.Some? then base + stored.value else base
  }

  class LLMPricingService {
    /** The in-memory table, keyed by model name. */
    var prices: map<string, Pricing>
    /** Time of the last successful refresh; never loaded from storage. */
    var lastUpdate: Option<int>
    /** The persisted snapshot under the key `llmPrices`; `None` when the key is absent. */
    var stored: Option<map<string, Pricing>>

    /** Builds the service over the persisted snapshot `saved` and loads it (the singleton's first use). */
    constructor (saved: Option<map<string, Pricing>>, now: int)
      ensures lastUpdate == None
      ensures saved.Some? && |saved.value| > 0 ==> prices == saved.value && stored == saved
      ensures !(saved.Some? && |saved.value| > 0) ==> prices == DefaultTable(now) && stored == Some(prices)
    {
      prices := map[];
      lastUpdate := None;
      stored := saved;
      new;
      LoadPrices(now);
    }

    /**
     * Copies every persisted entry into the table under its own key; seeds the
     * defaults when the table is still empty afterwards.
     */
    method LoadPrices(now: int)
      modifies this
      ensures lastUpdate == old(lastUpdate)
      ensures |Loaded(old(prices), old(stored))| > 0 ==> prices == Loaded(old(prices), old(stored)) && stored == old(stored)
      ensures |Loaded(old(prices), old(stored))| == 0 ==> prices == DefaultTable(now) && stored == Some(prices)
    {
      ReadSnapshot();
      if |prices| == 0 {
        SetDefaultPrices(now);
      }
    }

    /** Copies every persisted entry into the table under its own key. */
    method ReadSnapshot()
      modifies this`prices
      ensures prices == Loaded(old(prices), stored)
    {
      if stored.Some? {
        var saved := stored.value;
        var pending, done := saved.Keys, {};
        while pending != {}
          invariant pending + done == saved.Keys && pending !! done
          invariant prices == old(prices) + Restrict(saved, done)
          decreases pending
        {
          var k :| k in pending;
          RestrictGrows(old(prices), saved, done, k);
          prices := prices[k := saved[k]];
          pending, done := pending - {k}, done + {k};
        }
        assert Restrict(saved, done) == saved;
      }
    }

    /** Writes the six default entries into the table, then persists it. */
    method SetDefaultPrices(now: int)
      modifies this
      ensures prices == old(prices) + DefaultTable(now)
      ensures stored == Some(prices)
      ensures lastUpdate == old(lastUpdate)
    {
      var entries := DefaultEntries(now);
      var i := 0;
      while i < |entries|
        invariant 0 <= i <= |entries|
        invariant prices == old(prices) + TableOf(entries[..i])
        invariant lastUpdate == old(lastUpdate)
      {
        assert entries[..i + 1][..i] == entries[..i];
        prices := prices[entries[i].0 := entries[i].1];
        i := i + 1;
      }
      assert entries[..i] == entries;
      SavePrices();
    }

    /**
     * The external refresh. Both placeholder requests must succeed (`fetchOk`);
     * then the refresh time becomes `doneAt`, the clock read after both
     * requests have finished, and the table is persisted, its
     * entries untouched. A failure is reported and swallowed.
     */
    method FetchLatestPrices(doneAt: int, fetchOk: bool)
      modifies this
      ensures prices == old(prices)
      ensures lastUpdate == (if fetchOk then Some(doneAt) else old(lastUpdate))
      ensures stored == (if fetchOk then Some(prices) else old(stored))
    {
      if fetchOk {
        lastUpdate := Some(doneAt);
        SavePrices();
      }
    }

    /**
     * Refreshes when the table is stale at `now`; `fetched` says whether the
     * external fetch was attempted, and a successful one is stamped `doneAt`.
     */
    method UpdatePrices(now: int, doneAt: int, fetchOk: bool) returns (fetched: bool)
      modifies this
      ensures fetched == IsStale(old(lastUpdate), now)
      ensures lastUpdate == NextLastUpdate(old(lastUpdate), now, doneAt, fetchOk)
      ensures prices == old(prices)
      ensures stored == (if fetched && fetchOk then Some(prices) else old(stored))
    {
      fetched := lastUpdate.None? || now - lastUpdate.value > UpdateInterval;
      if fetched {
        FetchLatestPrices(doneAt, fetchOk);
      }
    }

    /** The entry for `model`, or nothing when the model is not in the table. */
    function GetPricing(model: string): (r: Option<Pricing>)
      reads this
      ensures r.Some? <==> model in prices
      ensures r.Some? ==> r.value == prices[model]
    {
      if model in prices then Some(prices[model]) else None
    }

    /** A copy of the whole table: a value, so callers cannot change the table through it. */
    function GetAllPrices(): (r: map<string, Pricing>)
      reads this
      ensures r.Keys == prices.Keys
      ensures forall m :: m in r ==> r[m] == prices[m]
    {
      prices
    }

    /** Persists the table. */
    method SavePrices()
      modifies this`stored
      ensures stored == Some(prices)
    {
      stored := Some(prices);
    }

    /**
     * The cost of a request: prices are per 1,000 tokens; a model missing
     * from the table costs nothing.
     */
    function CalculateCost(model: string, inputTokens: int, outputTokens: int): (cost: real)
      reads this
      ensures model !in prices ==> cost == 0.0
      ensures model in prices ==>
        cost * 1000.0 == inputTokens as real * prices[model].inputPrice + outputTokens as real * prices[model].outputPrice
      ensures inputTokens == 0 && outputTokens == 0 ==> cost == 0.0
    {
      match GetPricing(model)
      case None => 0.0
      case Some(pricing) =>
        (inputTokens as real / 1000.0) * pricing.inputPrice + (outputTokens as real / 1000.0) * pricing.outputPrice
    }
  }

  /** The cost of two requests is the sum of their costs. */
  lemma CostIsAdditive(s: LLMPricingService, model: string, i1: int, o1: int, i2: int, o2: int)
    ensures s.CalculateCost(model, i1 + i2, o1 + o2) == s.CalculateCost(model, i1, o1) + s.CalculateCost(model, i2, o2)
  {
  }

  /** With non-negative prices, a request with non-negative token counts never has a negative cost. */
  lemma CostIsNonNegative(s: LLMPricingService, model: string, inputTokens: int, outputTokens: int)
    requires inputTokens >= 0 && outputTokens >= 0
    requires model in s.prices ==> s.prices[model].inputPrice >= 0.0 && s.prices[model].outputPrice >= 0.0
    ensures s.CalculateCost(model, inputTokens, outputTokens) >= 0.0
  {
  }

  /** With the seeded table, 1,000 input and 500 output tokens of gpt-4 cost 0.03 + 0.03 = 0.06. */
  lemma DefaultGpt4Cost(s: LLMPricingService, now: int)
    requires s.prices == DefaultTable(now)
    ensures s.CalculateCost("gpt-4", 1000, 500) == 0.06
  {
  }
}
