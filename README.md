# LLM gateway model

A Dafny model of the LLM gateway of a browser tool that configures several
Large Language Model providers, sends chat-completion requests to them and
tracks what each request costs. The model covers three parts:

- **Pricing table** (`PricingTable`, from `src/services/llmPricingService.ts`).
  The class `LLMPricingService` holds a map from model name to prices per
  1,000 input and output tokens. It also holds the time of the last
  successful refresh and the snapshot persisted under `llmPrices`. With no
  persisted entries, the table is seeded with six built-in models and saved.
  A refresh is attempted only when no refresh has succeeded yet, or when the
  last one is strictly more than 24 hours old. Only a successful refresh
  moves that time forward, to the clock reading taken after the fetch has
  finished. Cost is exact real arithmetic, and a model
  missing from the table costs 0.
- **Configuration store and completion shaping** (`ConfigStore` and
  `Completion`, from `src/services/llmService.ts`). `ConfigTable` models a
  JavaScript `Map` with its insertion order. The class `LLMService` holds
  one such table and the array persisted under `llmConfigs`. The array is
  rewritten after every upsert and delete. `GetCompletion` is a function
  from a config, the messages and the HTTP exchange to a result. It defaults
  the endpoint, builds the body and the bearer header, and reads `usage` and
  the first choice's content. It charges `total_tokens / 1000 *
  costPer1kTokens`. An HTTP failure becomes `"API Error: "` followed by the
  provider's message, or the client's message when the provider gave none.
  `TestConnection` reduces the result to a boolean.
- **Selection** (`LLMContext`, from `src/context/LLMContext.tsx`).
  `Toggle` removes every occurrence of a selected id and appends an
  unselected one. The class `LLMProvider` holds the React state and calls
  into the store for add, update and delete. Delete also filters the id out
  of the selection.

The wall clock is an integer parameter (milliseconds). A price refresh reads
it twice: `now` for the staleness test and `doneAt` for the stamp once the
fetch has finished. The price fetch
is the flag `fetchOk`. The HTTP client is a function `send` from the request
to an `HttpOutcome`. Browser storage is an `Option` field on each class:
`None` means the key is absent, and JSON encoding is taken as the identity.

The model follows the code as written:

- `getCompletion` charges the config's flat `costPer1kTokens` on all tokens.
  It never consults the pricing table, even when the table has the model.
- `getCompletion` receives a config rather than an id, so it has no
  "config not found" error.
- Only a missing `usage`, a missing or empty `choices`, or a missing first
  `message` makes a 2xx body fail. That failure is the rethrown `TypeError`
  (`ProtocolError`). A missing `content` yields a completion without content.
- A successful price refresh changes no price, because the fetch is a
  placeholder. The refresh time is kept in memory only, so the first
  `updatePrices` after start-up always fetches.
- `deleteLLM` filters the in-memory selection but does not rewrite the
  persisted `selectedLLMs`. After a reload the deleted id is selected
  again. `LLMContext.SelectThenDelete` shows this.

## Model

| member | source | states |
|---|---|---|
| `PricingTable.DefaultTable` | src/services/llmPricingService.ts:45-54 | the seeded table has exactly the six default models, each keyed by its own name, stamped with the seeding time, input price below output price; gpt-4 is 0.03/0.06 |
| `PricingTable.SuccessSuppressesFetch` | src/services/llmPricingService.ts:74-88 | after a successful fetch that finished at `doneAt` the refresh time is `doneAt`, and no call within 24 hours of it is stale |
| `PricingTable.AtMostOneFetchPerInterval` | src/services/llmPricingService.ts:84-88 | of two sequential calls at most 24 hours apart, the second cannot fetch if the first fetched successfully, since its stamp is no earlier than its start |
| `PricingTable.FailedFetchIsRetried` | src/services/llmPricingService.ts:79-88 | a failed fetch leaves the refresh time unchanged, so every later call is still stale and fetches again |
| `PricingTable.LLMPricingService.constructor` | src/services/llmPricingService.ts:16-43 | a non-empty snapshot becomes the table as is (no defaults added, nothing written); an absent or empty one yields exactly the default table, which is persisted; no refresh time is set |
| `PricingTable.LLMPricingService.LoadPrices` | src/services/llmPricingService.ts:27-43 | the snapshot's entries are added under their own keys; if the table is then empty it becomes the default table and is persisted, else storage is untouched |
| `PricingTable.LLMPricingService.ReadSnapshot` | src/services/llmPricingService.ts:28-37 | every persisted entry is set under its map key over the current table |
| `PricingTable.LLMPricingService.SetDefaultPrices` | src/services/llmPricingService.ts:45-61 | the six defaults are written over the table, which is then persisted; the refresh time is unchanged |
| `PricingTable.LLMPricingService.FetchLatestPrices` | src/services/llmPricingService.ts:63-82 | prices never change; on success the refresh time becomes the clock reading taken after the fetch and the table is persisted; on failure nothing changes and nothing is raised |
| `PricingTable.LLMPricingService.UpdatePrices` | src/services/llmPricingService.ts:84-88 | a fetch is attempted iff no refresh time is set or `now` minus it exceeds 24 hours strictly; the refresh time advances, to `doneAt`, only on a successful attempt; prices unchanged |
| `PricingTable.LLMPricingService.GetPricing` | src/services/llmPricingService.ts:90-92 | the entry for the model when present, nothing otherwise |
| `PricingTable.LLMPricingService.GetAllPrices` | src/services/llmPricingService.ts:94-96 | a map with the same keys and entries as the table; in the model entries are values, so it cannot alter the table (the source's shallow copy shares its entry objects) |
| `PricingTable.LLMPricingService.SavePrices` | src/services/llmPricingService.ts:98-101 | the persisted snapshot equals the table |
| `PricingTable.LLMPricingService.CalculateCost` | src/services/llmPricingService.ts:103-111 | an unknown model costs 0 whatever the tokens; for a known model 1,000 times the cost is tokens times price summed over input and output; zero tokens cost 0 |
| `PricingTable.CostIsAdditive` | src/services/llmPricingService.ts:107-110 | the cost of the summed token counts is the sum of the costs |
| `PricingTable.CostIsNonNegative` | src/services/llmPricingService.ts:103-111 | non-negative prices and token counts give a non-negative cost |
| `PricingTable.DefaultGpt4Cost` | src/services/llmPricingService.ts:48-110 | with the seeded table, gpt-4 with 1,000 input and 500 output tokens costs 0.06 |
| `ConfigStore.ConfigTable.Get` | src/services/llmService.ts:111-113 | a config is returned iff its id is stored, and it is always the config with that id |
| `ConfigStore.ConfigTable.Set` | src/services/llmService.ts:119-122 | afterwards the id maps to the given config, every other id to what it did before; a new id goes to the end of the order, an existing one keeps its place |
| `ConfigStore.ConfigTable.Delete` | src/services/llmService.ts:124-127 | afterwards the id is absent, every other id maps to what it did before, and the order loses only that id |
| `ConfigStore.ConfigTable.Values` | src/services/llmService.ts:115-117 | one config per stored id, in insertion order, each under its own id, and nothing else |
| `ConfigStore.DeleteIsIdempotent` | src/services/llmService.ts:124-127 | deleting an id twice gives the same table as deleting it once |
| `ConfigStore.Load` | src/services/llmService.ts:49-55 | setting the persisted configs one after the other yields a well-formed table |
| `ConfigStore.LoadHasSavedIds` | src/services/llmService.ts:50-54 | a loaded table holds an id iff some persisted config has it |
| `ConfigStore.LoadLastWins` | src/services/llmService.ts:53 | an id maps to its last occurrence in the persisted array, so a later duplicate overwrites an earlier one |
| `ConfigStore.LoadValuesRoundTrip` | src/services/llmService.ts:129-131 | loading the array a table is saved as gives back the same table, order included |
| `ConfigStore.LLMService.constructor` | src/services/llmService.ts:38-55 | the table is the persisted array loaded in order, or empty when none is persisted; nothing is written |
| `ConfigStore.LLMService.GetConfig` | src/services/llmService.ts:111-113 | a config is returned iff its id is stored, and only under its own id |
| `ConfigStore.LLMService.GetAllConfigs` | src/services/llmService.ts:115-117 | position i holds the config of the i-th id in insertion order; every stored config occurs, and nothing else |
| `ConfigStore.LLMService.UpdateConfig` | src/services/llmService.ts:119-122 | afterwards the id maps to the config and all other ids are unchanged; the persisted array equals all configs |
| `ConfigStore.LLMService.DeleteConfig` | src/services/llmService.ts:124-127 | afterwards the id is absent, with no error if it was already absent, and all other ids are unchanged; the persisted array equals all configs |
| `ConfigStore.LLMService.SaveConfigs` | src/services/llmService.ts:129-131 | the persisted array equals all configs in order |
| `ConfigStore.DeleteTwice` | src/services/llmService.ts:124-127 | two deletions of an id leave the store as one deletion does |
| `Completion.Endpoint` | src/services/llmService.ts:59 | the config's base URL when set and non-empty, else the OpenAI chat-completions endpoint; never empty |
| `Completion.BuildRequest` | src/services/llmService.ts:59-76 | the body carries exactly model, messages, max tokens and temperature from the config; the authorization header is "Bearer " followed by the API key; JSON content type |
| `Completion.ErrorDetail` | src/services/llmService.ts:88 | the provider's message unless it is missing or empty, else the client's message |
| `Completion.ReadBody` | src/services/llmService.ts:78-85 | succeeds iff usage and a first choice with a message are present; then content is that message's, usage is passed through, and 1,000 times the cost is total tokens times the flat rate; otherwise a protocol error |
| `Completion.GetCompletion` | src/services/llmService.ts:57-92 | an API error iff the HTTP exchange failed, and its message starts with "API Error: "; success iff the exchange succeeded with a well-formed body |
| `Completion.TestConnection` | src/services/llmService.ts:94-109 | true iff completing the single user probe message succeeds; false on any error |
| `Completion.ApiErrorMessage` | src/services/llmService.ts:86-91 | an HTTP failure gives "API Error: " followed by the provider's message if non-empty, else the client's message |
| `Completion.SuccessShape` | src/services/llmService.ts:78-85 | on success: first choice's content, usage passed through, cost = total tokens / 1000 * costPer1kTokens |
| `Completion.CostIsNonNegative` | src/services/llmService.ts:79 | non-negative total tokens and rate give a non-negative cost |
| `Completion.OkResponseExample` | src/services/llmService.ts:78-85 | an "OK" answer with 10 + 2 = 12 tokens yields content "OK", that usage and cost 0.012 times the rate |
| `Completion.InvalidKeyExample` | src/services/llmService.ts:86-109 | a 401 with provider message "invalid key" fails with "API Error: invalid key" and the probe reports false |
| `Completion.MissingUsageExample` | src/services/llmService.ts:78-79 | a 2xx body without usage fails with a protocol error, not an API error |
| `Seqs.Without` | src/context/LLMContext.tsx:57 | the id no longer occurs, every other element that occurred still does, and nothing new appears |
| `Seqs.WithoutConcat` | src/context/LLMContext.tsx:57 | filtering commutes with concatenation, so the ids left keep their relative order |
| `Seqs.WithoutKeepsNoDuplicates` | src/context/LLMContext.tsx:63 | filtering keeps a duplicate-free list duplicate-free |
| `Seqs.WithoutIdempotent` | src/context/LLMContext.tsx:57 | filtering an id twice is filtering it once |
| `LLMContext.Toggle` | src/context/LLMContext.tsx:62-64 | the id is selected afterwards iff it was not before; no other id changes its selected status |
| `LLMContext.ToggleAppends` | src/context/LLMContext.tsx:62-64 | an unselected id is appended at the end, the list otherwise unchanged |
| `LLMContext.ToggleRemovesAll` | src/context/LLMContext.tsx:62-63 | a selected id is removed everywhere and the rest keep their order |
| `LLMContext.ToggleTwiceRestores` | src/context/LLMContext.tsx:62-64 | toggling an unselected id twice returns the original list exactly |
| `LLMContext.ToggleTwiceMovesToEnd` | src/context/LLMContext.tsx:62-64 | toggling a selected id twice leaves it once, at the end |
| `LLMContext.ToggleKeepsNoDuplicates` | src/context/LLMContext.tsx:62-64 | toggling keeps the selection duplicate-free |
| `LLMContext.LLMProvider.constructor` | src/context/LLMContext.tsx:32-42 | configs are read from the store; the selection is the persisted list if present, else empty |
| `LLMContext.LLMProvider.AddLLM` | src/context/LLMContext.tsx:44-47 | the store's upsert, then the config list is re-read; the selection is untouched |
| `LLMContext.LLMProvider.UpdateLLM` | src/context/LLMContext.tsx:49-52 | the same upsert as AddLLM, with the same postconditions |
| `LLMContext.LLMProvider.DeleteLLM` | src/context/LLMContext.tsx:54-58 | the config leaves the store and the id leaves the selection, the other ids in order; the persisted selection is not rewritten |
| `LLMContext.LLMProvider.ToggleLLMSelection` | src/context/LLMContext.tsx:60-70 | the selection becomes its toggle and is persisted |
| `LLMContext.LLMProvider.IsLLMSelected` | src/context/LLMContext.tsx:72 | true iff the id occurs in the selection |
| `LLMContext.SelectThenDelete` | src/context/LLMContext.tsx:54-70 | selecting an id and then deleting it restores the in-memory selection, but the persisted list still ends with the id |

## Left out

- HTTP transport: axios, `async`/`await`, timeouts and cancellation. The
  exchange is the parameter `send`, and the two placeholder GETs of the
  price refresh are the flag `fetchOk`.
- Browser storage and JSON. Each snapshot is an `Option` field, and encoding
  is the identity (a timestamp read back is the same integer). A storage write
  that throws (quota exceeded) is not modelled.
- The wall clock. Its two readings per refresh, `now` and `doneAt`, are
  parameters, and nothing ties them to each other.
- Overlapping refreshes. In the source, `updatePrices` awaits the fetch, so
  a second call made while the first is still waiting also sees the old
  refresh time and fetches too. The model runs calls one after the other,
  so `AtMostOneFetchPerInterval` holds only for sequential calls.
- Shared mutable objects. In the source, `getPricing` returns the table's
  own entry object, and `getAllPrices` returns a shallow copy whose entries
  are those same objects. `getConfig` and `getAllConfigs` hand out the
  stored config objects, and `updateConfig` stores the caller's object.
  A caller can therefore change the table or the store through them. In
  the model, entries and configs are immutable records, so this aliasing
  is not captured.
- IEEE-754 arithmetic. Prices and costs are exact reals. A `usage` object
  whose `total_tokens` is missing or not a number (giving `NaN` in the
  source) is not modelled: `Usage` always carries three integers.
- A provider error message that is not a string, and errors thrown by the
  HTTP client that are not axios errors. The model only has a provider
  message that is absent or a string, and a client message.
- `console.error` logging of a failed price refresh.
- The `getInstance` singletons. The model uses explicit instances.
- React rendering, the context hook and `useEffect` scheduling. The provider
  is modelled in its state after the mount effect.
- The configuration page, layout, home page and routing. They are user
  interface with no gateway behaviour.
