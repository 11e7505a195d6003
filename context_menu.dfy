/**
 * The context menu of src/background/background.js: the items
 * `createOrUpdateContextMenu` creates, and the `openLMenu` message a click
 * sends to the page.  Sub-item ids carry the prompt's position, which a click
 * reads back from the id's last `-`-separated segment.
 *
 * The stored values (`lastSelectedPrompt`, `prompts`) and the outcome of the
 * `chrome.scripting.executeScript` fallback are parameters; `created` holds
 * the `chrome.contextMenus.create` calls since the last `removeAll`.
 */
module ContextMenu {
  import opened Wrappers
  import opened Protocol
  import opened Text
  import opened Decimal
  import opened PromptResolver

  const LastItemId := "use-lmenu-last"
  const PromptsItemId := "use-lmenu-prompts"
  const SubItemPrefix := "use-lmenu-prompts-"

  /** The fields of `chrome.contextMenus.create` that the extension sets, besides `contexts`. */
  datatype MenuItem = MenuItem(id: string, parentId: Option<string>, title: string)

  /** `LMenu: ${data.lastSelectedPrompt || "Last used prompt"}` */
  function LastItemTitle(lastSelected: Option<string>): (r: string)
    ensures Truthy(lastSelected) ==> r == "LMenu: " + lastSelected.value
    ensures !Truthy(lastSelected) ==> r == "LMenu: Last used prompt"
  {
    "LMenu: " + OrDefault(lastSelected, "Last used prompt")
  }

  /** `value || fallback` for an optional string. */
  function OrDefault(value: Option<string>, fallback: string): (r: string)
    ensures Truthy(value) ==> r == value.value
    ensures !Truthy(value) ==> r == fallback
  {
    if Truthy(value) then value.value else fallback
  }

  /** `use-lmenu-prompts-${index}` */
  function SubItemId(index: nat): string {
    SubItemPrefix + NatToString(index)
  }

  /**
   * The items, in creation order: the last-used-prompt item, the parent of
   * the prompt items, then one child per stored prompt, titled with its name.
   */
  function MenuItems(lastSelected: Option<string>, prompts: seq<PromptDef>): (r: seq<MenuItem>)
    ensures |r| == |prompts| + 2
    ensures r[0] == MenuItem(LastItemId, None, LastItemTitle(lastSelected))
    ensures r[1] == MenuItem(PromptsItemId, None, "LMenu Prompts")
    ensures forall i :: 0 <= i < |prompts| ==> r[i + 2] == MenuItem(SubItemId(i), Some(PromptsItemId), prompts[i].name)
  {
    [MenuItem(LastItemId, None, LastItemTitle(lastSelected)), MenuItem(PromptsItemId, None, "LMenu Prompts")]
    + seq(|prompts|, i requires 0 <= i < |prompts| => MenuItem(SubItemId(i), Some(PromptsItemId), prompts[i].name))
  }

  /** Sub-item ids of different prompts differ, and differ from the two fixed ids. */
  lemma SubItemIdsDistinct(i: nat, j: nat)
    ensures SubItemId(i) != LastItemId && SubItemId(i) != PromptsItemId
    ensures i != j ==> SubItemId(i) != SubItemId(j)
  {
    NatToStringCanonical(i);
    if SubItemId(i) == SubItemId(j) {
      assert NatToString(i) == SubItemId(i)[|SubItemPrefix|..];
      assert NatToString(j) == SubItemId(j)[|SubItemPrefix|..];
      NatToStringInjective(i, j);
    }
  }

  /** No two items of the menu share an id, so no `create` call fails on a duplicate. */
  lemma MenuIdsDistinct(lastSelected: Option<string>, prompts: seq<PromptDef>)
    ensures var items := MenuItems(lastSelected, prompts);
      forall a, b :: 0 <= a < b < |items| ==> items[a].id != items[b].id
  {
    var items := MenuItems(lastSelected, prompts);
    forall a, b | 0 <= a < b < |items|
      ensures items[a].id != items[b].id
    {
      if b >= 2 {
        SubItemIdsDistinct(b - 2, if a >= 2 then a - 2 else b - 2);
      }
    }
  }

  /** `s.split("-").pop()`: the text after the last `-`, or all of `s` when it has none. */
  function LastSegment(s: string): (r: string)
    ensures '-' !in r
    ensures |r| <= |s| && s[|s| - |r|..] == r
    ensures |r| < |s| ==> s[|s| - |r| - 1] == '-'
    decreases |s|
  {
    if s == "" then ""
    else if s[|s| - 1] == '-' then ""
    else
      var init := LastSegment(s[..|s| - 1]);
      assert s[..|s| - 1][|s| - 1 - |init|..] == s[|s| - 1 - |init|..|s| - 1];
      init + [s[|s| - 1]]
  }

  /** After a `-`, a segment without `-` is the last segment. */
  lemma {:induction false} LastSegmentAfterDash(prefix: string, segment: string)
    requires |prefix| > 0 && prefix[|prefix| - 1] == '-' && '-' !in segment
    ensures LastSegment(prefix + segment) == segment
    decreases |segment|
  {
    var s := prefix + segment;
    if segment == [] {
      assert s == prefix;
    } else {
      var init := segment[..|segment| - 1];
      assert s[..|s| - 1] == prefix + init;
      assert '-' !in init by {
        forall k | 0 <= k < |init| ensures init[k] != '-' {
          assert init[k] == segment[k];
        }
      }
      LastSegmentAfterDash(prefix, init);
      assert segment == init + [segment[|segment| - 1]];
    }
  }

  /** The position a sub-item id was built from is read back from its last segment. */
  lemma SubItemIndexRoundTrip(index: nat)
    ensures StartsWith(SubItemId(index), SubItemPrefix)
    ensures ParseIndex(LastSegment(SubItemId(index))) == Some(index)
  {
    NatToStringCanonical(index);
    var digits := NatToString(index);
    assert '-' !in digits by {
      forall k | 0 <= k < |digits| ensures digits[k] != '-' {
        assert IsDigit(digits[k]);
      }
    }
    LastSegmentAfterDash(SubItemPrefix, digits);
    ParseNatToString(index);
  }

  /**
   * `prompts[idx]?.name || ""`: the name of the prompt at the position the
   * string denotes, or "" when it denotes none.
   */
  function ChosenPrompt(prompts: seq<PromptDef>, idx: string): (r: string)
    ensures ParseIndex(idx).Some? && ParseIndex(idx).value < |prompts| ==> r == prompts[ParseIndex(idx).value].name
    ensures !(ParseIndex(idx).Some? && ParseIndex(idx).value < |prompts|) ==> r == ""
  {
    match ParseIndex(idx)
    case Some(n) => if n < |prompts| then prompts[n].name else ""
    case None => ""
  }

  /** How the `executeScript` fallback ended: it threw, or it returned the frame's result. */
  datatype ScriptOutcome = ScriptThrew | ScriptReturned(result: Option<string>)

  /**
   * The text a click works on: the menu's selection text, or when that is
   * empty the selection the page script reports, or "".
   */
  function SelectedText(selection: Option<string>, script: ScriptOutcome): (r: string)
    ensures Truthy(selection) ==> r == selection.value
    ensures !Truthy(selection) && script.ScriptReturned? ==> r == OrDefault(script.result, "")
    ensures !Truthy(selection) && script.ScriptThrew? ==> r == ""
  {
    var fromMenu := OrDefault(selection, "");
    if fromMenu != "" then fromMenu
    else match script
      case ScriptThrew => ""
      case ScriptReturned(result) => OrDefault(result, "")
  }

  /**
   * The `chrome.tabs.sendMessage` a click on item `menuItemId` in tab `tab`
   * makes, if any: the last-used item opens the menu with the stored last
   * prompt (or ""), a prompt item with the prompt its id points at.
   */
  function OnClicked(menuItemId: string, selection: Option<string>, script: ScriptOutcome, tab: TabId,
                     lastSelected: Option<string>, prompts: seq<PromptDef>): (r: Option<Outgoing>)
    ensures r.Some? <==> menuItemId == LastItemId || StartsWith(menuItemId, SubItemPrefix)
    ensures r.Some? ==> r.value.tab == TabNumber(tab) && r.value.message.OpenLMenu?
                        && r.value.message.text == SelectedText(selection, script)
    ensures menuItemId == LastItemId ==> r.value.message.chosenPrompt == OrDefault(lastSelected, "")
    ensures StartsWith(menuItemId, SubItemPrefix) ==>
      r.value.message.chosenPrompt == ChosenPrompt(prompts, LastSegment(menuItemId))
  {
    var text := SelectedText(selection, script);
    if menuItemId == LastItemId then Some(Outgoing(TabNumber(tab), OpenLMenu(text, OrDefault(lastSelected, ""))))
    else if StartsWith(menuItemId, SubItemPrefix) then
      Some(Outgoing(TabNumber(tab), OpenLMenu(text, ChosenPrompt(prompts, LastSegment(menuItemId)))))
    else None
  }

  /**
   * A click on the item built for prompt `index` opens the menu with that
   * prompt's name, as long as the stored list still has that position.
   */
  lemma ClickChoosesBuiltPrompt(index: nat, selection: Option<string>, script: ScriptOutcome, tab: TabId,
                                lastSelected: Option<string>, prompts: seq<PromptDef>)
    requires index < |prompts|
    ensures OnClicked(SubItemId(index), selection, script, tab, lastSelected, prompts)
         == Some(Outgoing(TabNumber(tab), OpenLMenu(SelectedText(selection, script), prompts[index].name)))
  {
    SubItemIndexRoundTrip(index);
    SubItemIdsDistinct(index, index);
  }

  /** The `forEach` over the stored prompts, after the two fixed items. */
  method BuildItems(lastSelected: Option<string>, prompts: seq<PromptDef>) returns (items: seq<MenuItem>)
    ensures items == MenuItems(lastSelected, prompts)
  {
    items := [MenuItem(LastItemId, None, LastItemTitle(lastSelected)), MenuItem(PromptsItemId, None, "LMenu Prompts")];
    var index := 0;
    while index < |prompts|
      invariant 0 <= index <= |prompts| && |items| == index + 2
      invariant items[0] == MenuItem(LastItemId, None, LastItemTitle(lastSelected))
      invariant items[1] == MenuItem(PromptsItemId, None, "LMenu Prompts")
      invariant forall i :: 0 <= i < index ==> items[i + 2] == MenuItem(SubItemId(i), Some(PromptsItemId), prompts[i].name)
    {
      items := items + [MenuItem(SubItemId(index), Some(PromptsItemId), prompts[index].name)];
      index := index + 1;
    }
    ghost var all := MenuItems(lastSelected, prompts);
    forall k | 2 <= k < |items|
      ensures items[k] == all[k]
    {
      assert items[(k - 2) + 2] == all[(k - 2) + 2];
    }
  }

  /** The browser's context menu entries of the extension. */
  class ContextMenus {
    var created: seq<MenuItem>

    constructor ()
      ensures created == []
    {
      created := [];
    }

    /**
     * `createOrUpdateContextMenu()`: everything is removed, then the two fixed
     * items and one item per stored prompt are created in order.
     */
    method CreateOrUpdateContextMenu(lastSelected: Option<string>, storedPrompts: Option<seq<PromptDef>>)
      modifies this
      ensures created == MenuItems(lastSelected, storedPrompts.GetOr([]))
    {
      created := BuildItems(lastSelected, storedPrompts.GetOr([]));
    }
  }
}
