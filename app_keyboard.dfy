/** The app-level keyboard layer (cli/src/hooks/use-app-keyboard.ts): the
    key intercept that runs before the input sees a key (panels, menus, mode
    and model cycling), the global handler (cancel, tool expansion, Ctrl+C and
    the pending exit), and the clamp of the selected menu entry. Calls back
    into the app (send, set input, cancel, toggle a tool, exit) are returned
    as effects, in the order the source makes them. */
module AppKeyboard {
  import opened Common
  import opened ChatTypes
  import opened InputKeyboard
  import opened AppConstants
  import opened Trie

  /** The state the handlers read and update: the hook's own panel flags,
      menu index and pending-exit flag, and the mode index, model index and
      smart shortcut the app lends it with their setters. */
  datatype Panels = Panels(
    showShortcuts: bool,
    showCommands: bool,
    showContext: bool,
    selectedMenuIndex: nat,
    pendingExit: bool,
    modeIndex: nat,
    modelIndex: nat,
    smartShortcut: Option<string>)

  datatype Effect = Send(content: string) | SetInput(value: InputValue) | CancelStream | ToggleTool(id: string) | Exit

  /** The tables the handlers work over: the commands and context items the
      menus search, and the modes and models the cycles step through. */
  datatype Catalog = Catalog(commands: seq<Command>, contexts: seq<ContextItem>, modes: seq<string>, models: seq<string>)

  const CATALOG := Catalog(COMMANDS, CONTEXT_ITEMS, MODES, MODELS)

  predicate CatalogOk(cat: Catalog)
  {
    |cat.modes| > 0 && |cat.models| > 0
  }

  /** What the intercept does: the new state, whether the key is consumed,
      and the calls it makes. */
  datatype Outcome = Outcome(panels: Panels, handled: bool, effects: seq<Effect>)

  /** `.map((x) => x.name)` over the search results. */
  function Names<T>(xs: seq<T>, name: T -> string): (r: seq<string>)
    ensures |r| == |xs| && forall i :: 0 <= i < |xs| ==> r[i] == name(xs[i])
  {
    seq(|xs|, i requires 0 <= i < |xs| => name(xs[i]))
  }

  predicate MenuOpen(p: Panels)
  {
    p.showCommands || p.showContext
  }

  /** The names in the open menu: commands if that panel is open, otherwise
      context items, searched by the whole input. */
  function MenuNames(cat: Catalog, p: Panels, input: string): seq<string>
  {
    if p.showCommands then Names(SearchSpec(cat.commands, CommandName, input), CommandName)
    else Names(SearchSpec(cat.contexts, ContextName, input), ContextName)
  }

  /** `filtered[selectedMenuIndex] ?? filtered[0]`. */
  function Selected(names: seq<string>, index: nat): (r: string)
    requires names != []
    ensures r in names
    ensures index < |names| ==> r == names[index]
  {
    if index < |names| then names[index] else names[0]
  }

  /** `(prev - 1 + n) % n`; with prev >= 0 the dividend is never negative, so
      JavaScript's remainder agrees with Dafny's. */
  function MenuUp(prev: nat, n: nat): (r: nat)
    requires n > 0
    ensures r < n
    ensures 0 < prev <= n ==> r == prev - 1
    ensures prev == 0 ==> r == n - 1
  {
    (prev - 1 + n) % n
  }

  /** `(prev + 1) % n`: the step of the mode and model cycles, and Down in
      a menu. */
  function Cycle(i: nat, n: nat): (r: nat)
    requires n > 0
    ensures r < n
    ensures i + 1 < n ==> r == i + 1
    ensures i + 1 == n ==> r == 0
  {
    (i + 1) % n
  }

  function CloseMenus(p: Panels): Panels
  {
    p.(showCommands := false, showContext := false, selectedMenuIndex := 0)
  }

  /** `handleKeyIntercept`, first part: mode and model cycling, the
      shortcuts panel, and the keys that open a menu. */
  function Intercept(cat: Catalog, p: Panels, key: KeyEvent, input: string): Outcome
    requires CatalogOk(cat)
  {
    if key.shift && key.name == "m" then Outcome(p.(modeIndex := Cycle(p.modeIndex, |cat.modes|)), true, [])
    else if key.shift && key.name == "tab" then Outcome(p.(modelIndex := Cycle(p.modelIndex, |cat.models|)), true, [])
    else if key.sequence == "?" then
      if p.showCommands then Outcome(p, true, [])
      else Outcome(p.(showContext := false, showShortcuts := !p.showShortcuts), true, [])
    else if key.sequence == "*" && |input| == 0 then
      Outcome(p.(showShortcuts := false, showCommands := false, showContext := true, selectedMenuIndex := 0), false, [])
    else if key.sequence == "/" && |input| == 0 then
      Outcome(p.(showShortcuts := false, showContext := false, showCommands := true, selectedMenuIndex := 0), false, [])
    else MenuKey(cat, p, key, input)
  }

  /** Second part: moving through, completing from and choosing from a menu,
      and the smart shortcut on Tab. */
  function MenuKey(cat: Catalog, p: Panels, key: KeyEvent, input: string): Outcome
  {
    if MenuOpen(p) && (key.name == "up" || key.name == "down") then MenuMove(MenuNames(cat, p, input), p, key.name == "up")
    else if key.name == "tab" && |input| == 0 && !MenuOpen(p) && p.smartShortcut.Some? && p.smartShortcut.value != "" then
      Outcome(p.(smartShortcut := None), true, [Send(p.smartShortcut.value)])
    else if MenuOpen(p) && key.name == "tab" then MenuComplete(MenuNames(cat, p, input), p)
    else if MenuOpen(p) && (key.name == "return" || key.name == "enter") then MenuChoose(MenuNames(cat, p, input), p)
    else CloseKey(p, key, input)
  }

  /** Up or Down over the filtered names; always consumed. */
  function MenuMove(names: seq<string>, p: Panels, up: bool): (r: Outcome)
    ensures r.handled && r.effects == []
    ensures r.panels == p.(selectedMenuIndex := r.panels.selectedMenuIndex)
    ensures |names| == 0 ==> r.panels == p
    ensures |names| > 0 ==> r.panels.selectedMenuIndex < |names|
  {
    if |names| == 0 then Outcome(p, true, [])
    else if up then Outcome(p.(selectedMenuIndex := MenuUp(p.selectedMenuIndex, |names|)), true, [])
    else Outcome(p.(selectedMenuIndex := Cycle(p.selectedMenuIndex, |names|)), true, [])
  }

  /** Tab in a menu: fill in the selected name and a space; always consumed. */
  function MenuComplete(names: seq<string>, p: Panels): (r: Outcome)
    ensures r.handled
    ensures |names| == 0 ==> r.panels == p && r.effects == []
    ensures |names| > 0 ==>
      r.panels == CloseMenus(p) && |r.effects| == 1 && r.effects[0].SetInput? && |r.effects[0].value.text| > 0
    ensures |names| > 0 ==>
      var v := r.effects[0].value;
      v.text[..|v.text| - 1] in names && v.text[|v.text| - 1] == ' ' && v.cursorPosition == |v.text| && !v.lastEditDueToNav
  {
    if |names| == 0 then Outcome(p, true, [])
    else
      var s := Selected(names, p.selectedMenuIndex);
      Outcome(CloseMenus(p), true, [SetInput(InputValue(s + " ", |s| + 1, false))])
  }

  /** Enter in a menu: send the selected name and clear the input, or with
      no match close the menus and let the key through. */
  function MenuChoose(names: seq<string>, p: Panels): (r: Outcome)
    ensures r.panels == CloseMenus(p)
    ensures r.handled <==> |names| > 0
    ensures |names| == 0 ==> r.effects == []
    ensures |names| > 0 ==>
      |r.effects| == 2 && r.effects[0].Send? && r.effects[0].content in names && r.effects[1] == SetInput(EmptyInput)
  {
    if |names| == 0 then Outcome(CloseMenus(p), false, [])
    else Outcome(CloseMenus(p), true, [Send(Selected(names, p.selectedMenuIndex)), SetInput(EmptyInput)])
  }

  /** Third part: keys that close panels. */
  function CloseKey(p: Panels, key: KeyEvent, input: string): Outcome
  {
    if key.sequence == " " && MenuOpen(p) then
      Outcome(p.(showCommands := false, showContext := false), false, [])
    else if key.name == "backspace" && MenuOpen(p) then
      if input == "/" || input == "*" || (!StartsWith(input, "/") && !StartsWith(input, "*")) then
        Outcome(p.(showCommands := false, showContext := false), false, [])
      else Outcome(p, false, [])
    else if key.name == "escape" && (p.showShortcuts || MenuOpen(p)) then
      Outcome(p.(showShortcuts := false, showCommands := false, showContext := false), true, [])
    else Outcome(p, false, [])
  }

  /** Where the last tool call that completed with a non-empty full result is. */
  function LastCompletedTool(toolCalls: seq<ToolCall>): (r: Option<nat>)
    ensures r.None? ==> forall i :: 0 <= i < |toolCalls| ==> !ExpandableTool(toolCalls[i])
    ensures r.Some? ==> r.value < |toolCalls| && ExpandableTool(toolCalls[r.value])
    ensures r.Some? ==> forall j :: r.value < j < |toolCalls| ==> !ExpandableTool(toolCalls[j])
  {
    if toolCalls == [] then None
    else if ExpandableTool(toolCalls[|toolCalls| - 1]) then Some(|toolCalls| - 1)
    else LastCompletedTool(toolCalls[..|toolCalls| - 1])
  }

  /** `t.status === 'complete' && t.fullResult`: complete, with a non-empty result. */
  predicate ExpandableTool(t: ToolCall)
  {
    t.status == Complete && t.fullResult.Some? && t.fullResult.value != ""
  }

  /** The global key handler; `isStreaming` and `input` are the values the
      handler closed over. */
  function Global(p: Panels, key: KeyEvent, input: string, isStreaming: bool, toolCalls: seq<ToolCall>): (Panels, seq<Effect>)
  {
    if key.name == "escape" && isStreaming then (p, [CancelStream])
    else if key.ctrl && key.name == "o" then
      (p, match LastCompletedTool(toolCalls) case Some(k) => [ToggleTool(toolCalls[k].id)] case None => [])
    else if key.ctrl && key.name == "c" && isStreaming then (p, [CancelStream])
    else if key.ctrl && key.name == "c" && |input| == 0 && p.pendingExit then (p, [Exit])
    else
      var (q, effects) :=
        if key.ctrl && key.name == "c" then
          if |input| > 0 then (p.(pendingExit := false), [SetInput(EmptyInput)])
          else (p.(pendingExit := true), [])
        else (p, []);
      var r := if key.name == "backspace" && |input| == 0 && (p.showShortcuts || p.showContext)
        then q.(showShortcuts := false, showContext := false) else q;
      (if !key.ctrl && key.name != "c" && p.pendingExit then r.(pendingExit := false) else r, effects)
  }

  /** The effect that keeps the selected entry inside the open menu. */
  function ClampSelection(cat: Catalog, p: Panels, input: string): (r: Panels)
    ensures r == p.(selectedMenuIndex := r.selectedMenuIndex)
    ensures r.selectedMenuIndex <= p.selectedMenuIndex
    ensures MenuOpen(p) ==> r.selectedMenuIndex < |MenuNames(cat, p, input)| || r.selectedMenuIndex == 0
    ensures MenuOpen(p) && p.selectedMenuIndex < |MenuNames(cat, p, input)| ==> r == p
    ensures !MenuOpen(p) ==> r == p
  {
    if MenuOpen(p) then
      var n := |MenuNames(cat, p, input)|;
      if p.selectedMenuIndex >= n then p.(selectedMenuIndex := if n - 1 > 0 then n - 1 else 0) else p
    else p
  }

  /** At most one of the two menus is open. */
  predicate OneMenu(p: Panels)
  {
    !(p.showCommands && p.showContext)
  }

  class AppKeyboard {
    var showShortcuts: bool
    var showCommands: bool
    var showContext: bool
    var selectedMenuIndex: nat
    var pendingExit: bool
    var modeIndex: nat
    var modelIndex: nat
    var smartShortcut: Option<string>
    const catalog: Catalog
    const commandTrie: Trie<Command>
    const contextTrie: Trie<ContextItem>

    function State(): Panels
      reads this
    {
      Panels(showShortcuts, showCommands, showContext, selectedMenuIndex, pendingExit, modeIndex, modelIndex, smartShortcut)
    }

    /** The tries hold the command and context lists, keyed by name. */
    ghost predicate TriesOk()
      reads commandTrie, contextTrie
    {
      && commandTrie.Valid() && commandTrie.inserted == catalog.commands && commandTrie.getKey == CommandName
      && contextTrie.Valid() && contextTrie.inserted == catalog.contexts && contextTrie.getKey == ContextName
    }

    /** The cycles have something to step through, and at most one menu is
        open. */
    predicate PanelsOk()
      reads this
    {
      CatalogOk(catalog) && OneMenu(State())
    }

    /** The hook's invariant. The handlers modify only the hook's own fields,
        which `TriesOk` does not read, so a handler that keeps `PanelsOk`
        keeps `Valid`. */
    ghost predicate Valid()
      reads this, commandTrie, contextTrie
    {
      TriesOk() && PanelsOk()
    }

    /** The hook over the given tables; the app's is `CATALOG`. */
    constructor (catalog: Catalog, modeIndex: nat, modelIndex: nat, smartShortcut: Option<string>)
      requires CatalogOk(catalog)
      ensures Valid() && fresh(commandTrie) && fresh(contextTrie) && this.catalog == catalog
      ensures State() == Panels(false, false, false, 0, false, modeIndex, modelIndex, smartShortcut)
    {
      var commands := BuildTrie(catalog.commands, CommandName);
      var contexts := BuildTrie(catalog.contexts, ContextName);
      this.catalog := catalog;
      commandTrie := commands;
      contextTrie := contexts;
      showShortcuts := false;
      showCommands := false;
      showContext := false;
      selectedMenuIndex := 0;
      pendingExit := false;
      this.modeIndex := modeIndex;
      this.modelIndex := modelIndex;
      this.smartShortcut := smartShortcut;
    }

    /** `showCommands ? searchCommands(inputValue) : searchContext(inputValue)`, as names. */
    method Filtered(input: string) returns (names: seq<string>)
      requires Valid()
      ensures names == MenuNames(catalog, State(), input)
    {
      if showCommands {
        var cs := commandTrie.Search(input);
        names := Names(cs, CommandName);
      } else {
        var cs := contextTrie.Search(input);
        names := Names(cs, ContextName);
      }
    }

    method HandleKeyIntercept(key: KeyEvent, input: string) returns (handled: bool, effects: seq<Effect>)
      requires Valid()
      modifies this
      ensures Valid()
      ensures Outcome(State(), handled, effects) == Intercept(catalog, old(State()), key, input)
    {
      effects := [];
      if key.shift && key.name == "m" {
        modeIndex := (modeIndex + 1) % |catalog.modes|;
        return true, [];
      }
      if key.shift && key.name == "tab" {
        modelIndex := (modelIndex + 1) % |catalog.models|;
        return true, [];
      }
      if key.sequence == "?" {
        if showCommands {
          return true, [];
        }
        showContext := false;
        showShortcuts := !showShortcuts;
        return true, [];
      }
      if key.sequence == "*" && |input| == 0 {
        showShortcuts, showCommands, showContext, selectedMenuIndex := false, false, true, 0;
        return false, [];
      }
      if key.sequence == "/" && |input| == 0 {
        showShortcuts, showContext, showCommands, selectedMenuIndex := false, false, true, 0;
        return false, [];
      }
      handled, effects := HandleMenuKey(key, input);
    }

    method HandleMenuKey(key: KeyEvent, input: string) returns (handled: bool, effects: seq<Effect>)
      requires Valid()
      modifies this
      ensures Valid()
      ensures Outcome(State(), handled, effects) == MenuKey(catalog, old(State()), key, input)
    {
      if (showCommands || showContext) && (key.name == "up" || key.name == "down") {
        var filtered := Filtered(input);
        handled, effects := MoveSelection(filtered, key.name == "up");
        return;
      }
      if key.name == "tab" && |input| == 0 && !showCommands && !showContext && smartShortcut.Some? && smartShortcut.value != "" {
        effects := [Send(smartShortcut.value)];
        smartShortcut := None;
        return true, effects;
      }
      if (showCommands || showContext) && key.name == "tab" {
        var filtered := Filtered(input);
        handled, effects := Complete(filtered);
        return;
      }
      if (showCommands || showContext) && (key.name == "return" || key.name == "enter") {
        var filtered := Filtered(input);
        handled, effects := Choose(filtered);
        return;
      }
      handled, effects := HandleCloseKey(key, input);
    }

    method MoveSelection(filtered: seq<string>, up: bool) returns (handled: bool, effects: seq<Effect>)
      requires PanelsOk()
      modifies this
      ensures PanelsOk()
      ensures Outcome(State(), handled, effects) == MenuMove(filtered, old(State()), up)
    {
      if |filtered| > 0 {
        if up {
          selectedMenuIndex := (selectedMenuIndex - 1 + |filtered|) % |filtered|;
        } else {
          selectedMenuIndex := (selectedMenuIndex + 1) % |filtered|;
        }
      }
      return true, [];
    }

    method Complete(filtered: seq<string>) returns (handled: bool, effects: seq<Effect>)
      requires PanelsOk()
      modifies this
      ensures PanelsOk()
      ensures Outcome(State(), handled, effects) == MenuComplete(filtered, old(State()))
    {
      effects := [];
      if |filtered| > 0 {
        var selected := if selectedMenuIndex < |filtered| then filtered[selectedMenuIndex] else filtered[0];
        effects := [SetInput(InputValue(selected + " ", |selected| + 1, false))];
        showCommands, showContext, selectedMenuIndex := false, false, 0;
      }
      return true, effects;
    }

    method Choose(filtered: seq<string>) returns (handled: bool, effects: seq<Effect>)
      requires PanelsOk()
      modifies this
      ensures PanelsOk()
      ensures Outcome(State(), handled, effects) == MenuChoose(filtered, old(State()))
    {
      if |filtered| > 0 {
        var selected := if selectedMenuIndex < |filtered| then filtered[selectedMenuIndex] else filtered[0];
        showCommands, showContext, selectedMenuIndex := false, false, 0;
        return true, [Send(selected), SetInput(EmptyInput)];
      }
      showCommands, showContext, selectedMenuIndex := false, false, 0;
      return false, [];
    }

    method HandleCloseKey(key: KeyEvent, input: string) returns (handled: bool, effects: seq<Effect>)
      requires PanelsOk()
      modifies this
      ensures PanelsOk()
      ensures Outcome(State(), handled, effects) == CloseKey(old(State()), key, input)
    {
      effects := [];
      if key.sequence == " " && (showCommands || showContext) {
        showCommands, showContext := false, false;
        return false, [];
      }
      if key.name == "backspace" && (showCommands || showContext) {
        if input == "/" || input == "*" || (!StartsWith(input, "/") && !StartsWith(input, "*")) {
          showCommands, showContext := false, false;
        }
        return false, [];
      }
      if key.name == "escape" && (showShortcuts || showCommands || showContext) {
        showShortcuts, showCommands, showContext := false, false, false;
        return true, [];
      }
      return false, [];
    }

    /** The global handler; the 3-second timer that clears the pending exit
        is the separate `ExpirePendingExit`. */
    method HandleGlobalKey(key: KeyEvent, input: string, isStreaming: bool, toolCalls: seq<ToolCall>) returns (effects: seq<Effect>)
      requires PanelsOk()
      modifies this
      ensures PanelsOk()
      ensures (State(), effects) == Global(old(State()), key, input, isStreaming, toolCalls)
    {
      effects := [];
      if key.name == "escape" && isStreaming {
        return [CancelStream];
      }
      if key.ctrl && key.name == "o" {
        var last := FindLastCompleted(toolCalls);
        if last.Some? {
          effects := [ToggleTool(toolCalls[last.value].id)];
        }
        return effects;
      }
      var wasPending := pendingExit;
      if key.ctrl && key.name == "c" {
        if isStreaming {
          return [CancelStream];
        }
        if |input| > 0 {
          effects := [SetInput(EmptyInput)];
          pendingExit := false;
        } else if pendingExit {
          return [Exit];
        } else {
          pendingExit := true;
        }
      }
      if key.name == "backspace" && |input| == 0 && (showShortcuts || showContext) {
        showShortcuts, showContext := false, false;
      }
      if !key.ctrl && key.name != "c" && wasPending {
        pendingExit := false;
      }
    }

    /** The timer set on the first Ctrl+C: the pending exit lapses. */
    method ExpirePendingExit()
      modifies this
      ensures State() == old(State()).(pendingExit := false)
    {
      pendingExit := false;
    }

    method ClampSelectedIndex(input: string)
      requires Valid()
      modifies this
      ensures Valid()
      ensures State() == ClampSelection(catalog, old(State()), input)
    {
      if showCommands || showContext {
        var filtered := Filtered(input);
        if selectedMenuIndex >= |filtered| {
          selectedMenuIndex := if |filtered| - 1 > 0 then |filtered| - 1 else 0;
        }
      }
    }
  }

  /** The backwards scan of Ctrl+O for the last expandable tool call. */
  method FindLastCompleted(toolCalls: seq<ToolCall>) returns (r: Option<nat>)
    ensures r == LastCompletedTool(toolCalls)
  {
    var i := |toolCalls|;
    while i > 0 && !ExpandableTool(toolCalls[i - 1])
      invariant 0 <= i <= |toolCalls|
      invariant forall j :: i <= j < |toolCalls| ==> !ExpandableTool(toolCalls[j])
    {
      i := i - 1;
    }
    if i > 0 {
      LastCompletedIsLast(toolCalls, i - 1);
      return Some(i - 1);
    }
    return None;
  }

  /** The loop's answer is the last expandable tool. */
  lemma LastCompletedIsLast(toolCalls: seq<ToolCall>, i: nat)
    requires i < |toolCalls| && ExpandableTool(toolCalls[i])
    requires forall j :: i < j < |toolCalls| ==> !ExpandableTool(toolCalls[j])
    ensures LastCompletedTool(toolCalls) == Some(i)
    decreases |toolCalls|
  {
    if i < |toolCalls| - 1 {
      var init := toolCalls[..|toolCalls| - 1];
      LastCompletedIsLast(init, i);
    }
  }

  // ---------------------------------------------------------------------------
  // Properties of the handlers
  // ---------------------------------------------------------------------------

  /** The key passes the intercept's first tests and reaches the menu keys. */
  predicate ReachesMenu(key: KeyEvent, input: string)
  {
    && !(key.shift && (key.name == "m" || key.name == "tab"))
    && key.sequence != "?"
    && !((key.sequence == "*" || key.sequence == "/") && |input| == 0)
  }

  /** Shift+M is consumed and changes only the mode, which stays in range;
      Shift+Tab likewise for the model. */
  lemma ModelAndModeCycle(cat: Catalog, p: Panels, key: KeyEvent, input: string)
    requires CatalogOk(cat) && key.shift
    ensures key.name == "m" ==>
      var r := Intercept(cat, p, key, input);
      r.handled && r.effects == [] && r.panels == p.(modeIndex := r.panels.modeIndex) && r.panels.modeIndex < |cat.modes|
      && r.panels.modeIndex == (p.modeIndex + 1) % |cat.modes|
    ensures key.name == "tab" ==>
      var r := Intercept(cat, p, key, input);
      r.handled && r.effects == [] && r.panels == p.(modelIndex := r.panels.modelIndex) && r.panels.modelIndex < |cat.models|
      && r.panels.modelIndex == (p.modelIndex + 1) % |cat.models|
  {
  }

  /** Pressing the same key k times. */
  function PressMany(cat: Catalog, p: Panels, key: KeyEvent, input: string, k: nat): Panels
    requires CatalogOk(cat)
    decreases k
  {
    if k == 0 then p else PressMany(cat, Intercept(cat, p, key, input).panels, key, input, k - 1)
  }

  lemma {:induction false} PressManyAdd(cat: Catalog, p: Panels, key: KeyEvent, input: string, a: nat, b: nat)
    requires CatalogOk(cat)
    ensures PressMany(cat, p, key, input, a + b) == PressMany(cat, PressMany(cat, p, key, input, a), key, input, b)
    decreases a
  {
    if a > 0 {
      PressManyAdd(cat, Intercept(cat, p, key, input).panels, key, input, a - 1, b);
    }
  }

  /** Below the last mode, k presses of Shift+M add k to the mode. */
  lemma {:induction false} ModeAdvances(cat: Catalog, p: Panels, key: KeyEvent, input: string, k: nat)
    requires CatalogOk(cat) && key.shift && key.name == "m" && p.modeIndex + k < |cat.modes|
    ensures PressMany(cat, p, key, input, k) == p.(modeIndex := p.modeIndex + k)
    decreases k
  {
    if k > 0 {
      ModeAdvances(cat, p.(modeIndex := p.modeIndex + 1), key, input, k - 1);
    }
  }

  /** A full cycle of |MODES| presses of Shift+M restores the state. */
  lemma ModeCycleReturns(cat: Catalog, p: Panels, key: KeyEvent, input: string)
    requires CatalogOk(cat) && key.shift && key.name == "m" && p.modeIndex < |cat.modes|
    ensures PressMany(cat, p, key, input, |cat.modes|) == p
  {
    var n, i := |cat.modes|, p.modeIndex;
    var top := p.(modeIndex := n - 1);
    var zero := p.(modeIndex := 0);
    ModeAdvances(cat, p, key, input, n - 1 - i);
    PressManyAdd(cat, p, key, input, n - 1 - i, 1);
    assert PressMany(cat, top, key, input, 1) == zero;
    ModeAdvances(cat, zero, key, input, i);
    PressManyAdd(cat, p, key, input, n - i, i);
  }

  /** '?' (unless a cycle key) is always consumed: with the commands menu open
      it does nothing, otherwise it toggles the shortcuts panel and hides the
      context panel. */
  lemma QuestionMarkToggles(cat: Catalog, p: Panels, key: KeyEvent, input: string)
    requires CatalogOk(cat) && key.sequence == "?" && !(key.shift && (key.name == "m" || key.name == "tab"))
    ensures var r := Intercept(cat, p, key, input);
      && r.handled && r.effects == []
      && (p.showCommands ==> r.panels == p)
      && (!p.showCommands ==> r.panels == p.(showShortcuts := !p.showShortcuts, showContext := false))
  {
  }

  /** '/' or '*' on an empty input opens that menu alone at its first entry
      and lets the key through to be typed. */
  lemma SlashAndStarOpenMenus(cat: Catalog, p: Panels, key: KeyEvent, input: string)
    requires CatalogOk(cat) && |input| == 0 && !(key.shift && (key.name == "m" || key.name == "tab"))
    ensures key.sequence == "/" ==>
      var r := Intercept(cat, p, key, input);
      !r.handled && r.effects == [] && r.panels == p.(showShortcuts := false, showContext := false, showCommands := true, selectedMenuIndex := 0)
    ensures key.sequence == "*" ==>
      var r := Intercept(cat, p, key, input);
      !r.handled && r.effects == [] && r.panels == p.(showShortcuts := false, showCommands := false, showContext := true, selectedMenuIndex := 0)
  {
  }

  /** Up then Down, or Down then Up, returns to the same entry. */
  lemma MenuUpDownInverse(i: nat, n: nat)
    requires i < n
    ensures Cycle(MenuUp(i, n), n) == i && MenuUp(Cycle(i, n), n) == i
  {
  }

  /** With a menu open, Up and Down keep the selection inside the filtered
      results and are consumed. */
  lemma MenuArrowsStayInRange(cat: Catalog, p: Panels, key: KeyEvent, input: string)
    requires CatalogOk(cat) && ReachesMenu(key, input) && MenuOpen(p) && (key.name == "up" || key.name == "down")
    ensures var r := Intercept(cat, p, key, input);
      var n := |MenuNames(cat, p, input)|;
      && r.handled && r.effects == []
      && (n == 0 ==> r.panels == p)
      && (n > 0 ==> r.panels.selectedMenuIndex < n && r.panels == p.(selectedMenuIndex := r.panels.selectedMenuIndex))
  {
  }

  /** Tab on an empty input with no menu open sends a non-empty smart shortcut
      and clears it. */
  lemma TabSendsShortcut(cat: Catalog, p: Panels, key: KeyEvent, input: string)
    requires CatalogOk(cat) && ReachesMenu(key, input) && key.name == "tab" && |input| == 0 && !MenuOpen(p)
    requires p.smartShortcut.Some? && p.smartShortcut.value != ""
    ensures Intercept(cat, p, key, input) == Outcome(p.(smartShortcut := None), true, [Send(p.smartShortcut.value)])
  {
  }

  /** Tab in a menu fills in a listed name followed by a space, with the
      cursor after it, and closes the menus; it is consumed either way. */
  lemma TabCompletesName(cat: Catalog, p: Panels, key: KeyEvent, input: string)
    requires CatalogOk(cat) && ReachesMenu(key, input) && MenuOpen(p) && key.name == "tab"
    ensures var r := Intercept(cat, p, key, input);
      var names := MenuNames(cat, p, input);
      && r.handled
      && (names == [] ==> r.panels == p && r.effects == [])
      && (names != [] ==>
            r.panels == CloseMenus(p) && |r.effects| == 1 && r.effects[0].SetInput? && r.effects[0].value.cursorPosition == |r.effects[0].value.text|)
  {
  }

  /** Enter in a menu sends a listed name and clears the input when there is
      a match (consumed); with no match it closes the menus and falls through. */
  lemma EnterChoosesName(cat: Catalog, p: Panels, key: KeyEvent, input: string)
    requires CatalogOk(cat) && ReachesMenu(key, input) && MenuOpen(p) && (key.name == "return" || key.name == "enter")
    requires key.name != "up" && key.name != "down" && key.name != "tab"
    ensures var r := Intercept(cat, p, key, input);
      var names := MenuNames(cat, p, input);
      && r.panels == CloseMenus(p)
      && (r.handled <==> names != [])
      && (names == [] ==> r.effects == [])
      && (names != [] ==> |r.effects| == 2 && r.effects[0].Send? && r.effects[0].content in names && r.effects[1] == SetInput(EmptyInput))
  {
  }

  /** Escape with any panel open closes all three and is consumed. */
  lemma EscapeClosesPanels(cat: Catalog, p: Panels, key: KeyEvent, input: string)
    requires CatalogOk(cat) && ReachesMenu(key, input) && key.name == "escape" && key.sequence != " "
    requires p.showShortcuts || MenuOpen(p)
    ensures Intercept(cat, p, key, input) == Outcome(p.(showShortcuts := false, showCommands := false, showContext := false), true, [])
  {
  }

  /** The intercept never opens both menus. */
  lemma InterceptKeepsOneMenu(cat: Catalog, p: Panels, key: KeyEvent, input: string)
    requires CatalogOk(cat) && OneMenu(p)
    ensures OneMenu(Intercept(cat, p, key, input).panels)
  {
  }

  /** While streaming, Escape and Ctrl+C only cancel the stream. */
  lemma StreamingKeysCancel(p: Panels, key: KeyEvent, input: string, toolCalls: seq<ToolCall>)
    requires key.name == "escape" || (key.ctrl && key.name == "c")
    ensures Global(p, key, input, true, toolCalls) == (p, [CancelStream])
  {
  }

  /** Ctrl+C when not streaming: a non-empty input is cleared and the pending
      exit dropped; on an empty input the first press arms the pending exit
      and the second exits. */
  lemma CtrlCWhenIdle(p: Panels, key: KeyEvent, input: string, toolCalls: seq<ToolCall>)
    requires key.ctrl && key.name == "c"
    ensures var (q, effects) := Global(p, key, input, false, toolCalls);
      && (|input| > 0 ==> q == p.(pendingExit := false) && effects == [SetInput(EmptyInput)])
      && (|input| == 0 && !p.pendingExit ==> q == p.(pendingExit := true) && effects == [])
      && (|input| == 0 && p.pendingExit ==> q == p && effects == [Exit])
  {
  }

  /** The app exits only on a Ctrl+C with an empty input, no stream, and the
      exit already pending. */
  lemma ExitOnlyWhenPending(p: Panels, key: KeyEvent, input: string, isStreaming: bool, toolCalls: seq<ToolCall>)
    ensures Exit in Global(p, key, input, isStreaming, toolCalls).1 ==>
      key.ctrl && key.name == "c" && |input| == 0 && !isStreaming && p.pendingExit
  {
  }

  /** Ctrl+O toggles the last completed tool with a result, if any. */
  lemma CtrlOTogglesLastTool(p: Panels, key: KeyEvent, input: string, isStreaming: bool, toolCalls: seq<ToolCall>)
    requires key.ctrl && key.name == "o" && !(key.name == "escape" && isStreaming)
    ensures var (q, effects) := Global(p, key, input, isStreaming, toolCalls);
      && q == p
      && ((forall i :: 0 <= i < |toolCalls| ==> !ExpandableTool(toolCalls[i])) ==> effects == [])
      && (forall i :: 0 <= i < |toolCalls| && ExpandableTool(toolCalls[i]) && (forall j :: i < j < |toolCalls| ==> !ExpandableTool(toolCalls[j])) ==>
            effects == [ToggleTool(toolCalls[i].id)])
  {
    match LastCompletedTool(toolCalls)
    case None =>
    case Some(k) =>
      forall i | 0 <= i < |toolCalls| && ExpandableTool(toolCalls[i]) && (forall j :: i < j < |toolCalls| ==> !ExpandableTool(toolCalls[j]))
        ensures i == k
      {
      }
  }

  /** Any key other than a Ctrl chord or 'c' drops a pending exit. */
  lemma OtherKeysDropPendingExit(p: Panels, key: KeyEvent, input: string, isStreaming: bool, toolCalls: seq<ToolCall>)
    requires !key.ctrl && key.name != "c" && !(key.name == "escape" && isStreaming)
    ensures !Global(p, key, input, isStreaming, toolCalls).0.pendingExit
  {
  }

  /** Backspace on an empty input closes the shortcuts and context panels. */
  lemma BackspaceClosesPanels(p: Panels, key: KeyEvent, isStreaming: bool, toolCalls: seq<ToolCall>)
    requires key.name == "backspace" && !key.ctrl
    ensures var q := Global(p, key, "", isStreaming, toolCalls).0;
      !q.showShortcuts && !q.showContext && q.showCommands == p.showCommands && q.selectedMenuIndex == p.selectedMenuIndex
  {
  }
}
