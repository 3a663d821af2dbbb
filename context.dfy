/**
 * The LLM context: the list of selected configuration ids, persisted under
 * the storage key `selectedLLMs` when it is toggled, and the add, update and
 * delete actions that go through the configuration store.
 */
module LLMContext {
  import opened Wrappers
  import opened Seqs
  import opened ConfigStore

  /** `toggleLLMSelection`'s new list: every occurrence of a selected id is removed; an unselected id is appended. */
  function Toggle(selected: seq<string>, id: string): (r: seq<string>)
    ensures id in r <==> id !in selected
    ensures forall other :: other != id ==> (other in r <==> other in selected)
  {
    if id in selected then Without(selected, id) else selected + [id]
  }

  /** An unselected id goes to the end of the list, which is otherwise unchanged. */
  lemma ToggleAppends(selected: seq<string>, id: string)
    requires id !in selected
    ensures Toggle(selected, id) == selected + [id]
  {
  }

  /** A selected id is removed everywhere, and the remaining ids keep their order. */
  lemma ToggleRemovesAll(a: seq<string>, b: seq<string>, id: string)
    requires id in a + b
    ensures Toggle(a + b, id) == Without(a, id) + Without(b, id)
    ensures id !in Toggle(a + b, id)
  {
    WithoutConcat(a, b, id);
  }

  /** Toggling an unselected id twice gives back exactly the original list. */
  lemma {:induction false} ToggleTwiceRestores(selected: seq<string>, id: string)
    requires id !in selected
    ensures Toggle(Toggle(selected, id), id) == selected
  {
    WithoutConcat(selected, [id], id);
    WithoutAbsent(selected, id);
    assert Without([id], id) == [];
  }

  /** Toggling a selected id twice leaves it once, at the end, after the other ids in their order. */
  lemma ToggleTwiceMovesToEnd(selected: seq<string>, id: string)
    requires id in selected
    ensures Toggle(Toggle(selected, id), id) == Without(selected, id) + [id]
  {
  }

  /** Toggling keeps the list free of duplicates. */
  lemma ToggleKeepsNoDuplicates(selected: seq<string>, id: string)
    requires NoDuplicates(selected)
    ensures NoDuplicates(Toggle(selected, id))
  {
    if id in selected {
      WithoutKeepsNoDuplicates(selected, id);
    } else {
      AppendKeepsNoDuplicates(selected, id);
    }
  }

  class LLMProvider {
    /** The configuration store the context calls into. */
    const service: LLMService
    /** `llms`: the configs as last read from the store. */
    var llms: seq<LLMConfig>
    /** `selectedLLMs`. */
    var selectedLLMs: seq<string>
    /** The persisted selection under the key `selectedLLMs`; `None` when the key is absent. */
    var storedSelection: Option<seq<string>>

    /** The `llms` list mirrors the store. */
    ghost predicate Valid()
      reads this, service
    {
      service.Valid() && llms == service.GetAllConfigs()
    }

    /** The provider after its mount effect: configs read from the store, selection read from storage if present. */
    constructor (service: LLMService, saved: Option<seq<string>>)
      requires service.Valid()
      ensures this.service == service && Valid()
      ensures selectedLLMs == (if saved.Some? then saved.value else [])
      ensures storedSelection == saved
    {
      this.service := service;
      llms := service.GetAllConfigs();
      selectedLLMs := if saved.Some? then saved.value else [];
      storedSelection := saved;
    }

    /** `addLLM`: the store's upsert, then a fresh read of all configs. */
    method AddLLM(llm: LLMConfig)
      requires Valid()
      modifies this, service
      ensures Valid()
      ensures service.configs == old(service.configs).Set(llm)
      ensures service.GetConfig(llm.id) == Some(llm)
      ensures service.stored == Some(llms)
      ensures selectedLLMs == old(selectedLLMs) && storedSelection == old(storedSelection)
    {
      service.UpdateConfig(llm);
      llms := service.GetAllConfigs();
    }

    /** `updateLLM`: the same upsert as `addLLM`. */
    method UpdateLLM(llm: LLMConfig)
      requires Valid()
      modifies this, service
      ensures Valid()
      ensures service.configs == old(service.configs).Set(llm)
      ensures service.GetConfig(llm.id) == Some(llm)
      ensures service.stored == Some(llms)
      ensures selectedLLMs == old(selectedLLMs) && storedSelection == old(storedSelection)
    {
      service.UpdateConfig(llm);
      llms := service.GetAllConfigs();
    }

    /**
     * `deleteLLM`: removes the config from the store and the id from the
     * selection; the persisted selection is not rewritten.
     */
    method DeleteLLM(id: string)
      requires Valid()
      modifies this, service
      ensures Valid()
      ensures service.configs == old(service.configs).Delete(id)
      ensures service.GetConfig(id) == None
      ensures service.stored == Some(llms)
      ensures selectedLLMs == Without(old(selectedLLMs), id)
      ensures storedSelection == old(storedSelection)
    {
      service.DeleteConfig(id);
      llms := service.GetAllConfigs();
      selectedLLMs := Without(selectedLLMs, id);
    }

    /** `toggleLLMSelection`: flips the id's membership and persists the new list. */
    method ToggleLLMSelection(id: string)
      modifies this`selectedLLMs, this`storedSelection
      ensures selectedLLMs == Toggle(old(selectedLLMs), id)
      ensures storedSelection == Some(selectedLLMs)
    {
      selectedLLMs := Toggle(selectedLLMs, id);
      storedSelection := Some(selectedLLMs);
    }

    /** `isLLMSelected`: whether the id occurs in the selection. */
    function IsLLMSelected(id: string): (r: bool)
      reads this
      ensures r <==> exists i :: 0 <= i < |selectedLLMs| && selectedLLMs[i] == id
    {
      id in selectedLLMs
    }
  }

  /**
   * Client view: selecting an id and then deleting its config leaves the id
   * unselected in memory but still listed in the persisted selection.
   */
  method SelectThenDelete(p: LLMProvider, id: string)
    requires p.Valid() && !p.IsLLMSelected(id)
    modifies p, p.service
    ensures !p.IsLLMSelected(id)
    ensures p.selectedLLMs == old(p.selectedLLMs)
    ensures p.storedSelection == Some(old(p.selectedLLMs) + [id])
  {
    p.ToggleLLMSelection(id);
    assert p.IsLLMSelected(id);
    p.DeleteLLM(id);
    ToggleTwiceRestores(old(p.selectedLLMs), id);
  }
}
