/**
 * The older options page of options.js.  It handles the stored API key, and
 * prompts and languages edited through two small forms.
 *
 * Every handler reads the stored list, changes it and writes it back.  So
 * the `prompts` and `languages` fields stand for what `chrome.storage.sync`
 * holds; a missing list reads as empty.  JavaScript arrays can have holes,
 * and a hole is stored as `null`; the prompt list therefore holds `Option`s,
 * with `None` for a hole.  The form inputs are fields that the user's typing
 * (`Type…` methods) sets.
 */
module LegacyOptions {
  import opened Wrappers
  import opened Protocol
  import opened Text
  import opened Lists
  import opened PromptResolver

  const KeySaved := "API key is saved."
  const KeyInvalid := "Please enter a valid API key."
  const PromptIncomplete := "Please enter both name and content for the prompt."
  const LanguageBlank := "Please enter a language name."
  const LanguageExists := "Language already exists."

  /**
   * `promptForm.dataset.index`: never set (`undefined`), the empty string of
   * a new prompt, or the position of the prompt being edited.
   */
  datatype FormIndex = Unset | Blank | At(index: nat)

  /**
   * `a[i] = x` on a JavaScript array: position `i` holds `x`, and an `i`
   * past the end first grows the array with holes.
   */
  function AssignAt<T>(a: seq<Option<T>>, i: nat, x: T): (r: seq<Option<T>>)
    ensures |r| == if i < |a| then |a| else i + 1
    ensures r[i] == Some(x)
    ensures forall k :: 0 <= k < |r| && k != i ==> r[k] == if k < |a| then a[k] else None
  {
    if i < |a| then a[i := Some(x)] else a + seq(i - |a|, _ => None) + [Some(x)]
  }

  /**
   * The stored prompts after `prompts[index] = saved` under the form's
   * index: the new prompt goes at the edited position, or at the end for a
   * new prompt; an index that was never set changes nothing stored.  Every
   * other stored prompt stays where it was.
   */
  function SavedPrompts(prompts: seq<Option<PromptDef>>, form: FormIndex, saved: PromptDef): (r: seq<Option<PromptDef>>)
    ensures form.Unset? ==> r == prompts
    ensures form.Blank? ==> |r| == |prompts| + 1 && r[|prompts|] == Some(saved)
    ensures form.At? ==> |r| == (if form.index < |prompts| then |prompts| else form.index + 1) && r[form.index] == Some(saved)
    ensures forall k :: 0 <= k < |prompts| && (form.At? ==> k != form.index) ==> r[k] == prompts[k]
    ensures forall k :: |prompts| <= k < |r| && Some(saved) != r[k] ==> r[k] == None
  {
    match form
    case Unset => prompts
    case Blank => prompts + [Some(saved)]
    case At(i) => AssignAt(prompts, i, saved)
  }

  /**
   * The prompt the form's inputs describe: the trimmed name and content,
   * or nothing when either is blank.
   */
  function FormPrompt(name: string, content: string): (r: Option<PromptDef>)
    ensures r.None? <==> AllWhitespace(name) || AllWhitespace(content)
    ensures r.Some? ==> r.value == PromptDef(Trim(name), Trim(content))
  {
    TrimEmptyIffBlank(name);
    TrimEmptyIffBlank(content);
    var trimmedName, trimmedContent := Trim(name), Trim(content);
    if trimmedName != "" && trimmedContent != "" then Some(PromptDef(trimmedName, trimmedContent)) else None
  }

  predicate NoDuplicates<T(==)>(s: seq<T>) {
    forall i, j :: 0 <= i < j < |s| ==> s[i] != s[j]
  }

  /** Removing an element keeps a list free of duplicates. */
  lemma SpliceOutNoDuplicates<T>(s: seq<T>, index: nat)
    requires NoDuplicates(s)
    ensures NoDuplicates(SpliceOut(s, index))
  {
    var r := SpliceOut(s, index);
    if index < |s| {
      forall i, j | 0 <= i < j < |r|
        ensures r[i] != r[j]
      {
        var si := if i < index then i else i + 1;
        var sj := if j < index then j else j + 1;
        assert r[i] == s[si] && r[j] == s[sj] && si < sj;
      }
    }
  }

  /** Appending an element the list does not hold keeps it free of duplicates. */
  lemma AppendNewNoDuplicates<T>(s: seq<T>, x: T)
    requires NoDuplicates(s) && x !in s
    ensures NoDuplicates(s + [x])
  {
    var r := s + [x];
    forall i, j | 0 <= i < j < |r|
      ensures r[i] != r[j]
    {
      if j == |s| {
        assert r[i] == s[i];
      }
    }
  }

  class OptionsForm {
    var storedKey: Option<string>
    var apiKeyInput: string
    var prompts: seq<Option<PromptDef>>
    var languages: seq<string>
    var promptForm: FormIndex
    var promptFormVisible: bool
    var promptName: string
    var promptContent: string
    var languageFormVisible: bool
    var languageName: string
    var alerts: seq<string>

    /** The page as loaded, before `DOMContentLoaded`: both forms hidden, nothing stored read yet. */
    constructor (storedKey: Option<string>)
      ensures this.storedKey == storedKey && apiKeyInput == ""
      ensures prompts == [] && languages == [] && promptForm == Unset
      ensures !promptFormVisible && !languageFormVisible && alerts == []
    {
      this.storedKey := storedKey;
      apiKeyInput := "";
      prompts := [];
      languages := [];
      promptForm := Unset;
      promptFormVisible := false;
      promptName := "";
      promptContent := "";
      languageFormVisible := false;
      languageName := "";
      alerts := [];
    }

    /** On load, a stored non-empty key is shown in the key input. */
    method ShowStoredKey()
      modifies this
      ensures apiKeyInput == if Truthy(storedKey) then storedKey.value else old(apiKeyInput)
      ensures storedKey == old(storedKey) && alerts == old(alerts)
      ensures prompts == old(prompts) && languages == old(languages)
    {
      if Truthy(storedKey) {
        apiKeyInput := storedKey.value;
      }
    }

    /** The user types into the key input. */
    method TypeApiKey(value: string)
      modifies this
      ensures apiKeyInput == value && storedKey == old(storedKey) && alerts == old(alerts)
      ensures prompts == old(prompts) && languages == old(languages)
    {
      apiKeyInput := value;
    }

    /** The save button: the trimmed key is stored only when it is not empty. */
    method SaveApiKey()
      modifies this
      ensures var key := Trim(old(apiKeyInput));
        if key != "" then storedKey == Some(key) && alerts == old(alerts) + [KeySaved]
        else storedKey == old(storedKey) && alerts == old(alerts) + [KeyInvalid]
      ensures apiKeyInput == old(apiKeyInput) && prompts == old(prompts) && languages == old(languages)
    {
      var key := Trim(apiKeyInput);
      StoreApiKey(key);
    }

    /** The second half of the save button, once the input has been read and trimmed. */
    method StoreApiKey(key: string)
      modifies this
      ensures if key != "" then storedKey == Some(key) && alerts == old(alerts) + [KeySaved]
        else storedKey == old(storedKey) && alerts == old(alerts) + [KeyInvalid]
      ensures apiKeyInput == old(apiKeyInput) && prompts == old(prompts) && languages == old(languages)
    {
      if key != "" {
        storedKey := Some(key);
        alerts := alerts + [KeySaved];
      } else {
        alerts := alerts + [KeyInvalid];
      }
    }

    /**
     * `initializePromptsAndLanguages()`: the stored lists when both are
     * present; otherwise both from `prompts.json` (`None` when loading it
     * failed, which leaves them as they were).
     */
    method InitializePromptsAndLanguages(storedPrompts: Option<seq<Option<PromptDef>>>, storedLanguages: Option<seq<string>>,
                                         defaults: Option<(seq<Option<PromptDef>>, seq<string>)>)
      modifies this
      ensures storedPrompts.Some? && storedLanguages.Some? ==>
        prompts == storedPrompts.value && languages == storedLanguages.value
      ensures (storedPrompts.None? || storedLanguages.None?) && defaults.Some? ==>
        prompts == defaults.value.0 && languages == defaults.value.1
      ensures (storedPrompts.None? || storedLanguages.None?) && defaults.None? ==>
        prompts == old(prompts) && languages == old(languages)
      ensures storedKey == old(storedKey) && alerts == old(alerts) && promptForm == old(promptForm)
    {
      if storedPrompts.None? || storedLanguages.None? {
        if defaults.Some? {
          prompts := defaults.value.0;
          languages := defaults.value.1;
        }
      } else {
        prompts := storedPrompts.value;
        languages := storedLanguages.value;
      }
    }

    /** `showPromptForm()` of the add button: an empty form for a new prompt. */
    method ShowNewPromptForm()
      modifies this
      ensures promptFormVisible && promptForm == Blank && promptName == "" && promptContent == ""
      ensures prompts == old(prompts) && languages == old(languages) && alerts == old(alerts)
    {
      promptFormVisible := true;
      promptName := "";
      promptContent := "";
      promptForm := Blank;
    }

    /** `editPrompt(index)`: the form shows the stored prompt at `index` and remembers the position. */
    method EditPrompt(index: nat)
      requires index < |prompts| && prompts[index].Some?
      modifies this
      ensures prompts == old(prompts) && languages == old(languages) && alerts == old(alerts)
      ensures promptFormVisible && promptForm == At(index)
      ensures promptName == prompts[index].value.name && promptContent == prompts[index].value.systemContent
    {
      promptFormVisible := true;
      var prompt := prompts[index].value;
      promptName := prompt.name;
      promptContent := prompt.systemContent;
      promptForm := At(index);
    }

    /** The user types into the prompt form. */
    method TypePrompt(name: string, content: string)
      modifies this
      ensures promptName == name && promptContent == content
      ensures promptForm == old(promptForm) && promptFormVisible == old(promptFormVisible)
      ensures prompts == old(prompts) && languages == old(languages) && alerts == old(alerts)
    {
      promptName := name;
      promptContent := content;
    }

    /** `hidePromptForm()` */
    method HidePromptForm()
      modifies this
      ensures !promptFormVisible && promptForm == Blank
      ensures prompts == old(prompts) && languages == old(languages) && alerts == old(alerts)
    {
      promptFormVisible := false;
      promptForm := Blank;
    }

    /**
     * `savePrompt()`: with a non-empty trimmed name and content, the prompt
     * `{ name, systemContent }` replaces the one at the form's position, or
     * is appended for a new prompt, and the form is hidden.  Under a form
     * index that was never set the write goes to a property the stored
     * array does not keep.  Otherwise nothing is saved and the user is told.
     */
    method SavePrompt()
      modifies this
      ensures var prompt := FormPrompt(old(promptName), old(promptContent));
        if prompt.None? then
          && prompts == old(prompts) && alerts == old(alerts) + [PromptIncomplete]
          && promptForm == old(promptForm) && promptFormVisible == old(promptFormVisible)
        else
          && alerts == old(alerts) && promptForm == Blank && !promptFormVisible
          && prompts == SavedPrompts(old(prompts), old(promptForm), prompt.value)
      ensures languages == old(languages) && storedKey == old(storedKey)
    {
      var prompt := FormPrompt(promptName, promptContent);
      StorePrompt(prompt);
    }

    /** The second half of `savePrompt()`, once the inputs have been read and trimmed. */
    method StorePrompt(prompt: Option<PromptDef>)
      modifies this
      ensures if prompt.None? then
          && prompts == old(prompts) && alerts == old(alerts) + [PromptIncomplete]
          && promptForm == old(promptForm) && promptFormVisible == old(promptFormVisible)
        else
          && alerts == old(alerts) && promptForm == Blank && !promptFormVisible
          && prompts == SavedPrompts(old(prompts), old(promptForm), prompt.value)
      ensures languages == old(languages) && storedKey == old(storedKey)
      ensures promptName == old(promptName) && promptContent == old(promptContent)
    {
      if prompt.Some? {
        prompts := SavedPrompts(prompts, promptForm, prompt.value);
        promptFormVisible := false;
        promptForm := Blank;
      } else {
        alerts := alerts + [PromptIncomplete];
      }
    }

    /** `deletePrompt(index)`: exactly the stored prompt at `index` goes; the form is left as it is. */
    method DeletePrompt(index: nat)
      modifies this
      ensures prompts == SpliceOut(old(prompts), index)
      ensures promptForm == old(promptForm) && languages == old(languages) && alerts == old(alerts)
    {
      prompts := SpliceOut(prompts, index);
    }

    /** `showLanguageForm()` */
    method ShowLanguageForm()
      modifies this
      ensures languageFormVisible && languageName == ""
      ensures prompts == old(prompts) && languages == old(languages) && alerts == old(alerts)
    {
      languageFormVisible := true;
      languageName := "";
    }

    /** The user types into the language form. */
    method TypeLanguage(name: string)
      modifies this
      ensures languageName == name && languageFormVisible == old(languageFormVisible)
      ensures prompts == old(prompts) && languages == old(languages) && alerts == old(alerts)
    {
      languageName := name;
    }

    /** `hideLanguageForm()` */
    method HideLanguageForm()
      modifies this
      ensures !languageFormVisible
      ensures prompts == old(prompts) && languages == old(languages) && alerts == old(alerts)
    {
      languageFormVisible := false;
    }

    /**
     * `saveLanguage()`: a non-empty trimmed name that is not yet in the list
     * is appended and the form hidden; a blank or existing name is refused
     * with an alert.  So a list without duplicates stays without duplicates.
     */
    method SaveLanguage()
      modifies this
      ensures var name := Trim(old(languageName));
        if name == "" then
          languages == old(languages) && alerts == old(alerts) + [LanguageBlank] && languageFormVisible == old(languageFormVisible)
        else if name in old(languages) then
          languages == old(languages) && alerts == old(alerts) + [LanguageExists] && languageFormVisible == old(languageFormVisible)
        else languages == old(languages) + [name] && alerts == old(alerts) && !languageFormVisible
      ensures NoDuplicates(old(languages)) ==> NoDuplicates(languages)
      ensures prompts == old(prompts) && storedKey == old(storedKey)
    {
      var name := Trim(languageName);
      StoreLanguage(name);
    }

    /** The second half of `saveLanguage()`, once the input has been read and trimmed. */
    method StoreLanguage(name: string)
      modifies this
      ensures if name == "" then
          languages == old(languages) && alerts == old(alerts) + [LanguageBlank] && languageFormVisible == old(languageFormVisible)
        else if name in old(languages) then
          languages == old(languages) && alerts == old(alerts) + [LanguageExists] && languageFormVisible == old(languageFormVisible)
        else languages == old(languages) + [name] && alerts == old(alerts) && !languageFormVisible
      ensures NoDuplicates(old(languages)) ==> NoDuplicates(languages)
      ensures prompts == old(prompts) && storedKey == old(storedKey) && languageName == old(languageName)
    {
      if name != "" {
        if name !in languages {
          if NoDuplicates(languages) {
            AppendNewNoDuplicates(languages, name);
          }
          languages := languages + [name];
          languageFormVisible := false;
        } else {
          alerts := alerts + [LanguageExists];
        }
      } else {
        alerts := alerts + [LanguageBlank];
      }
    }

    /** `deleteLanguage(index)`: exactly the stored language at `index` goes. */
    method DeleteLanguage(index: nat)
      modifies this
      ensures languages == SpliceOut(old(languages), index)
      ensures NoDuplicates(old(languages)) ==> NoDuplicates(languages)
      ensures prompts == old(prompts) && alerts == old(alerts)
    {
      if NoDuplicates(languages) {
        SpliceOutNoDuplicates(languages, index);
      }
      languages := SpliceOut(languages, index);
    }
  }
}
