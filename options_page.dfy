/**
 * The settings page of src/options/Options.jsx: its three lists (API keys,
 * prompts, languages), the floating-button switch, and the handlers that
 * load, reorder, add, edit and delete entries.
 *
 * API keys and prompts are objects that the edit handlers change in place,
 * so they are classes here and the lists hold references.  The copies the
 * handlers make (`[...list]`) share those objects with the old list.  Each
 * save also writes the new list to `chrome.storage.sync`; only the page's
 * state is modelled.
 */
module OptionsPage {
  import opened Wrappers
  import opened Decimal
  import opened Lists

  /** `{ name, key, model }` */
  class ApiKey {
    var name: string
    var key: string
    var model: string

    constructor (name: string, key: string, model: string)
      ensures this.name == name && this.key == key && this.model == model
    {
      this.name := name;
      this.key := key;
      this.model := model;
    }
  }

  /** `{ name, systemContent, apiKeyName }` */
  class PromptEntry {
    var name: string
    var systemContent: string
    var apiKeyName: string

    constructor (name: string, systemContent: string, apiKeyName: string)
      ensures this.name == name && this.systemContent == systemContent && this.apiKeyName == apiKeyName
    {
      this.name := name;
      this.systemContent := systemContent;
      this.apiKeyName := apiKeyName;
    }
  }

  /** The fields the page edits: "name", "key" and "model" of a key. */
  datatype ApiKeyField = KeyName | KeySecret | KeyModel

  /** The fields the page edits: "name", "systemContent" and "apiKeyName" of a prompt. */
  datatype PromptField = PromptName | PromptContent | PromptKeyName

  /** Where a dragged row was taken from or dropped: a list (`droppableId`) and a position in it. */
  datatype DragLocation = DragLocation(droppableId: string, index: nat)

  /** The `type` of a drag: "apiKeys", "prompts", "languages", or anything else. */
  datatype DragType = ApiKeysType | PromptsType | LanguagesType | OtherType

  /** The `result` of a drag: `type` names the list the row belongs to. */
  datatype DropResult = DropResult(source: DragLocation, destination: Option<DragLocation>, kind: DragType)

  /** A drop that `handleDragEnd` ignores: outside any list, or back onto the spot it came from. */
  predicate IgnoredDrop(r: DropResult) {
    r.destination.None?
    || (r.source.index == r.destination.value.index && r.source.droppableId == r.destination.value.droppableId)
  }

  /** `prompts.json` as the page reads it: either list may be missing. */
  datatype Defaults = Defaults(prompts: Option<seq<PromptEntry>>, languages: Option<seq<string>>)

  class SettingsPage {
    var apiKeys: seq<ApiKey>
    var prompts: seq<PromptEntry>
    var languages: seq<string>
    var showFloatingButton: bool
    /** Whether the page body carries the `dragging` class. */
    var bodyDragging: bool

    /** The initial React state. */
    constructor ()
      ensures apiKeys == [] && prompts == [] && languages == []
      ensures !showFloatingButton && !bodyDragging
    {
      apiKeys := [];
      prompts := [];
      languages := [];
      showFloatingButton := false;
      bodyDragging := false;
    }

    /**
     * The mount effect.  Stored keys are taken as they are, or none.  Stored
     * prompts and languages are taken only when both are present; otherwise
     * both lists come from `prompts.json` (`defaults`, `None` when loading it
     * failed, which leaves both lists as they were).  The switch is the
     * stored flag, off by default.
     */
    method Load(storedKeys: Option<seq<ApiKey>>, storedPrompts: Option<seq<PromptEntry>>,
                storedLanguages: Option<seq<string>>, defaults: Option<Defaults>, storedShow: Option<bool>)
      modifies this
      ensures apiKeys == storedKeys.GetOr([])
      ensures storedPrompts.Some? && storedLanguages.Some? ==>
        prompts == storedPrompts.value && languages == storedLanguages.value
      ensures (storedPrompts.None? || storedLanguages.None?) && defaults.Some? ==>
        prompts == defaults.value.prompts.GetOr([]) && languages == defaults.value.languages.GetOr([])
      ensures (storedPrompts.None? || storedLanguages.None?) && defaults.None? ==>
        prompts == old(prompts) && languages == old(languages)
      ensures showFloatingButton == storedShow.GetOr(false)
      ensures !bodyDragging
    {
      bodyDragging := false;
      apiKeys := storedKeys.GetOr([]);
      if storedPrompts.None? || storedLanguages.None? {
        if defaults.Some? {
          prompts := defaults.value.prompts.GetOr([]);
          languages := defaults.value.languages.GetOr([]);
        }
      } else {
        prompts := storedPrompts.value;
        languages := storedLanguages.value;
      }
      showFloatingButton := storedShow.GetOr(false);
    }

    /** `handleDragStart()` */
    method HandleDragStart()
      modifies this
      ensures bodyDragging
      ensures apiKeys == old(apiKeys) && prompts == old(prompts) && languages == old(languages)
      ensures showFloatingButton == old(showFloatingButton)
    {
      bodyDragging := true;
    }

    /**
     * `handleDragEnd(result)`: an ignored drop changes no list; otherwise the
     * list named by the drop's type is reordered, moving the dragged row to
     * the drop position.  The drag library reports a source position that
     * is a row of that list.
     */
    method HandleDragEnd(r: DropResult)
      requires !IgnoredDrop(r) && r.kind == ApiKeysType ==> r.source.index < |apiKeys|
      requires !IgnoredDrop(r) && r.kind == PromptsType ==> r.source.index < |prompts|
      requires !IgnoredDrop(r) && r.kind == LanguagesType ==> r.source.index < |languages|
      modifies this
      ensures !bodyDragging && showFloatingButton == old(showFloatingButton)
      ensures IgnoredDrop(r) || r.kind == OtherType ==>
        apiKeys == old(apiKeys) && prompts == old(prompts) && languages == old(languages)
      ensures !IgnoredDrop(r) && r.kind == ApiKeysType ==>
        apiKeys == Reorder(old(apiKeys), r.source.index, r.destination.value.index)
        && prompts == old(prompts) && languages == old(languages)
      ensures !IgnoredDrop(r) && r.kind == PromptsType ==>
        prompts == Reorder(old(prompts), r.source.index, r.destination.value.index)
        && apiKeys == old(apiKeys) && languages == old(languages)
      ensures !IgnoredDrop(r) && r.kind == LanguagesType ==>
        languages == Reorder(old(languages), r.source.index, r.destination.value.index)
        && apiKeys == old(apiKeys) && prompts == old(prompts)
    {
      bodyDragging := false;
      if !IgnoredDrop(r) {
        var from, to := r.source.index, r.destination.value.index;
        if r.kind == ApiKeysType {
          apiKeys := Reorder(apiKeys, from, to);
        } else if r.kind == PromptsType {
          prompts := Reorder(prompts, from, to);
        } else if r.kind == LanguagesType {
          languages := Reorder(languages, from, to);
        }
      }
    }

    /** `handleShowFloatingButtonChange(e)`: the switch follows the checkbox. */
    method HandleShowFloatingButtonChange(checked: bool)
      modifies this
      ensures showFloatingButton == checked
      ensures apiKeys == old(apiKeys) && prompts == old(prompts) && languages == old(languages)
      ensures bodyDragging == old(bodyDragging)
    {
      showFloatingButton := checked;
    }

    /** `addApiKey()`: one new key, named after the clock, with no secret and the default model, at the end. */
    method AddApiKey(now: nat)
      modifies this
      ensures |apiKeys| == |old(apiKeys)| + 1 && apiKeys[..|old(apiKeys)|] == old(apiKeys)
      ensures var added := apiKeys[|apiKeys| - 1];
        fresh(added) && added.name == "API Key " + NatToString(now) && added.key == "" && added.model == "gpt-3.5-turbo"
      ensures prompts == old(prompts) && languages == old(languages)
      ensures showFloatingButton == old(showFloatingButton) && bodyDragging == old(bodyDragging)
    {
      var added := new ApiKey("API Key " + NatToString(now), "", "gpt-3.5-turbo");
      apiKeys := apiKeys + [added];
    }

    /**
     * `updateApiKey(index, field, value)`: the key object at `index` gets the
     * new value in that field; the list holds the same objects as before, so
     * the previous list sees the change too.
     */
    method UpdateApiKey(index: nat, field: ApiKeyField, value: string)
      requires index < |apiKeys|
      modifies this, apiKeys[index]
      ensures apiKeys == old(apiKeys) && prompts == old(prompts) && languages == old(languages)
      ensures showFloatingButton == old(showFloatingButton) && bodyDragging == old(bodyDragging)
      ensures var k := apiKeys[index];
        && k.name == (if field == KeyName then value else old(k.name))
        && k.key == (if field == KeySecret then value else old(k.key))
        && k.model == (if field == KeyModel then value else old(k.model))
    {
      var k := apiKeys[index];
      match field {
        case KeyName => k.name := value;
        case KeySecret => k.key := value;
        case KeyModel => k.model := value;
      }
    }

    /** `deleteApiKey(index)`: the key at `index` is removed, the rest keep their order. */
    method DeleteApiKey(index: nat)
      modifies this
      ensures apiKeys == SpliceOut(old(apiKeys), index)
      ensures prompts == old(prompts) && languages == old(languages)
      ensures showFloatingButton == old(showFloatingButton) && bodyDragging == old(bodyDragging)
    {
      apiKeys := SpliceOut(apiKeys, index);
    }

    /**
     * `addPrompt()`: one new prompt at the end, bound to the first key's
     * name, or to "" when there is no key (or the first has no name).
     */
    method AddPrompt()
      modifies this
      ensures |prompts| == |old(prompts)| + 1 && prompts[..|old(prompts)|] == old(prompts)
      ensures var added := prompts[|prompts| - 1];
        && fresh(added) && added.name == "New Prompt" && added.systemContent == ""
        && added.apiKeyName == (if apiKeys == [] then "" else apiKeys[0].name)
      ensures apiKeys == old(apiKeys) && languages == old(languages)
      ensures showFloatingButton == old(showFloatingButton) && bodyDragging == old(bodyDragging)
    {
      var defaultKey := if apiKeys == [] then "" else apiKeys[0].name;
      var added := new PromptEntry("New Prompt", "", defaultKey);
      prompts := prompts + [added];
    }

    /** `updatePrompt(index, field, value)`: as for keys, in place on the shared prompt object. */
    method UpdatePrompt(index: nat, field: PromptField, value: string)
      requires index < |prompts|
      modifies this, prompts[index]
      ensures apiKeys == old(apiKeys) && prompts == old(prompts) && languages == old(languages)
      ensures showFloatingButton == old(showFloatingButton) && bodyDragging == old(bodyDragging)
      ensures var p := prompts[index];
        && p.name == (if field == PromptName then value else old(p.name))
        && p.systemContent == (if field == PromptContent then value else old(p.systemContent))
        && p.apiKeyName == (if field == PromptKeyName then value else old(p.apiKeyName))
    {
      var p := prompts[index];
      match field {
        case PromptName => p.name := value;
        case PromptContent => p.systemContent := value;
        case PromptKeyName => p.apiKeyName := value;
      }
    }

    /** `deletePrompt(index)` */
    method DeletePrompt(index: nat)
      modifies this
      ensures prompts == SpliceOut(old(prompts), index)
      ensures apiKeys == old(apiKeys) && languages == old(languages)
      ensures showFloatingButton == old(showFloatingButton) && bodyDragging == old(bodyDragging)
    {
      prompts := SpliceOut(prompts, index);
    }

    /** `addLanguage()`: "New Language" at the end. */
    method AddLanguage()
      modifies this
      ensures languages == old(languages) + ["New Language"]
      ensures apiKeys == old(apiKeys) && prompts == old(prompts)
      ensures showFloatingButton == old(showFloatingButton) && bodyDragging == old(bodyDragging)
    {
      languages := languages + ["New Language"];
    }

    /** `updateLanguage(index, value)`: only position `index` changes. */
    method UpdateLanguage(index: nat, value: string)
      requires index < |languages|
      modifies this
      ensures languages == old(languages)[index := value]
      ensures apiKeys == old(apiKeys) && prompts == old(prompts)
      ensures showFloatingButton == old(showFloatingButton) && bodyDragging == old(bodyDragging)
    {
      languages := languages[index := value];
    }

    /** `deleteLanguage(index)` */
    method DeleteLanguage(index: nat)
      modifies this
      ensures languages == SpliceOut(old(languages), index)
      ensures apiKeys == old(apiKeys) && prompts == old(prompts)
      ensures showFloatingButton == old(showFloatingButton) && bodyDragging == old(bodyDragging)
    {
      languages := SpliceOut(languages, index);
    }
  }
}
