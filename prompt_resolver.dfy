/**
 * Prompt lookup, `{language}` substitution and the message list sent to the
 * completion service, shared by both background variants.
 */
module PromptResolver {
  import opened Wrappers
  import opened Text
  import opened Protocol

  /** A prompt of `prompts.json`: only its name and system content are read. */
  datatype PromptDef = PromptDef(name: string, systemContent: string)

  /** `prompts.find((prompt) => prompt.name === promptType)`. */
  function FindPrompt(prompts: seq<PromptDef>, name: Option<string>): (r: Option<PromptDef>)
    ensures r.Some? ==> name.Some? && r.value in prompts && r.value.name == name.value
    ensures r.None? <==> name.None? || forall k :: 0 <= k < |prompts| ==> prompts[k].name != name.value
    ensures r.Some? ==> exists k :: 0 <= k < |prompts| && prompts[k] == r.value
                                     && forall j :: 0 <= j < k ==> prompts[j].name != name.value
  {
    if name.None? || prompts == [] then None
    else if prompts[0].name == name.value then Some(prompts[0])
    else
      var r := FindPrompt(prompts[1..], name);
      assert forall k :: 1 <= k < |prompts| ==> prompts[k] == prompts[1..][k - 1];
      r
  }

  const PromptNotFound := "Prompt not found."

  /**
   * The system message of `sendToOpenAI` (src/background/openaiApi.js): none
   * without a prompt name, an error for an unknown name, otherwise the
   * prompt's content with `{language}` filled in when a language is given.
   */
  function ResolveSystemContent(prompts: seq<PromptDef>, promptType: Option<string>, promptLanguage: Option<string>)
    : (r: Result<Option<string>, string>)
    ensures !Truthy(promptType) ==> r == Ok(None)
    ensures Truthy(promptType) && FindPrompt(prompts, promptType).None? ==> r == Err(PromptNotFound)
    ensures Truthy(promptType) && FindPrompt(prompts, promptType).Some? ==>
      var content := FindPrompt(prompts, promptType).value.systemContent;
      r == Ok(Some(if Truthy(promptLanguage) then FillPlaceholder(content, promptLanguage.value) else content))
  {
    if !Truthy(promptType) then Ok(None)
    else
      match FindPrompt(prompts, promptType)
      case None => Err(PromptNotFound)
      case Some(p) =>
        Ok(Some(if Truthy(promptLanguage) then FillPlaceholder(p.systemContent, promptLanguage.value) else p.systemContent))
  }

  /** The value `replace` writes for `promptLanguage`: JavaScript renders an absent one as "undefined". */
  function LanguageText(promptLanguage: Option<string>): string {
    promptLanguage.GetOr("undefined")
  }

  /**
   * The message list: the system message when there is one, then the previous
   * conversation in order, then the user's text, last.
   */
  function BuildMessages(system: Option<string>, previous: Option<seq<ChatMessage>>, text: string): (r: seq<ChatMessage>)
    ensures |r| == (if system.Some? then 1 else 0) + |previous.GetOr([])| + 1
    ensures r[|r| - 1] == ChatMessage(User, text)
    ensures system.Some? ==> r[0] == ChatMessage(System, system.value)
    ensures var offset := if system.Some? then 1 else 0;
      r[offset..|r| - 1] == previous.GetOr([])
  {
    var head := if system.Some? then [ChatMessage(System, system.value)] else [];
    var middle := previous.GetOr([]);
    var r := head + middle + [ChatMessage(User, text)];
    assert r[|head|..|r| - 1] == middle;
    r
  }

  /** Example: the template "Translate to {language}" with "French". */
  lemma TranslateExample()
    ensures FillPlaceholder("Translate to {language}", "French") == "Translate to French"
  {
    var pieces := ["Translate to ", ""];
    assert JoinWith(pieces, Placeholder) == "Translate to {language}";
    assert JoinWith(pieces, "French") == "Translate to French";
    NoBraceNoPlaceholder(pieces[0]);
    NoBraceNoPlaceholder(pieces[1]);
    FillIsJoin(pieces, "French");
  }
}
