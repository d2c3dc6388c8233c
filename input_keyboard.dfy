/** The key handler of the multiline input (cli/src/hooks/use-input-keyboard.ts).
    One key event, given the current value and cursor, either matches no
    binding, or matches one: that binding first calls `preventKeyDefault`
    (cli/src/utils/text-editing.ts) and then emits a new input value through
    `onChange`, asks for submission through `onSubmit`, or does nothing more. The first matching binding wins; the order below is the
    handler's order. The older input component (cli/src/components/multiline-input.tsx)
    carries the same handler inline, binding for binding, so this models it too. */
module InputKeyboard {
  import opened Common
  import opened ChatTypes
  import opened TextNavigation
  import opened TextEditing

  /** A terminal key event; an absent `name` or `sequence` is "" and an absent
      modifier is false, which every test below treats the same way. */
  datatype KeyEvent = KeyEvent(name: string, sequence: string, ctrl: bool, shift: bool, meta: bool, option: bool)

  /** What one key event does to the input. `Ignore`: no binding matched and
      the key goes on to the terminal's default handling. The other three
      come from a binding, which has stopped that default: `Consume` emits
      nothing more, `Change` calls `onChange`, `Submit` calls `onSubmit`. */
  datatype Action = Ignore | Consume | Change(value: InputValue) | Submit

  /** `preventKeyDefault` was called for the key. */
  predicate Prevented(a: Action)
  {
    !a.Ignore?
  }

  const ESC: char := '\U{001B}'

  function LowerName(key: KeyEvent): string
  {
    Lower(key.name)
  }

  /** Option held, or a two-character escape sequence that is not a CSI introducer. */
  predicate IsAltLike(key: KeyEvent)
  {
    key.option || (|key.sequence| == 2 && key.sequence[0] == ESC && key.sequence[1] != '[')
  }

  predicate IsEnterKey(key: KeyEvent)
  {
    key.name == "return" || key.name == "enter"
  }

  predicate HasEscapePrefix(key: KeyEvent)
  {
    |key.sequence| > 0 && key.sequence[0] == ESC
  }

  predicate HasBackslashBeforeCursor(value: string, cursor: int)
  {
    cursor > 0 && CharAt(value, cursor - 1) == Some('\\')
  }

  predicate IsPlainEnter(key: KeyEvent, value: string, cursor: int)
  {
    && IsEnterKey(key) && !key.shift && !key.ctrl && !key.meta && !key.option
    && !IsAltLike(key) && !HasEscapePrefix(key) && key.sequence == "\r"
    && !HasBackslashBeforeCursor(value, cursor)
  }

  predicate IsShiftEnter(key: KeyEvent)
  {
    IsEnterKey(key) && (key.shift || key.sequence == "\n")
  }

  predicate IsOptionEnter(key: KeyEvent)
  {
    IsEnterKey(key) && (IsAltLike(key) || HasEscapePrefix(key))
  }

  predicate IsCtrlJ(key: KeyEvent)
  {
    key.ctrl && !key.meta && !key.option && (LowerName(key) == "j" || IsEnterKey(key))
  }

  predicate IsBackslashEnter(key: KeyEvent, value: string, cursor: int)
  {
    IsEnterKey(key) && HasBackslashBeforeCursor(value, cursor)
  }

  predicate ShouldInsertNewline(key: KeyEvent, value: string, cursor: int)
  {
    IsShiftEnter(key) || IsOptionEnter(key) || IsCtrlJ(key) || IsBackslashEnter(key, value, cursor)
  }

  /** A plain Ctrl chord on one letter: Ctrl held, Meta and Option not. */
  predicate IsCtrlChord(key: KeyEvent, letter: string)
  {
    key.ctrl && LowerName(key) == letter && !key.meta && !key.option
  }

  /** The key with no Ctrl, Meta or Option held. */
  predicate Unmodified(key: KeyEvent)
  {
    !key.ctrl && !key.meta && !key.option
  }

  /** An edit, which is never a navigation edit except for Ctrl+K. */
  function Emit(text: string, cursor: int): Action
  {
    Change(InputValue(text, cursor, false))
  }

  /** `insertTextAtCursor`: nothing for the empty string. */
  function InsertAtCursor(value: string, cursor: int, t: string): Action
  {
    if t == "" then Consume
    else Emit(Slice(value, 0, cursor) + t + SliceFrom(value, cursor), cursor + |t|)
  }

  /** `moveCursor`: clamp into the buffer, and nothing if the cursor would not move. */
  function MoveCursor(value: string, cursor: int, next: int): Action
  {
    var clamped := Clamp(next, 0, |value|);
    if clamped == cursor then Consume else Emit(value, clamped)
  }

  /** The whole handler. `intercepted` is what the optional interceptor returned
      for this key (false when there is none); it is consulted only when focused. */
  function HandleKey(focused: bool, intercepted: bool, key: KeyEvent, value: string, cursor: int): Action
  {
    if !focused || intercepted then Ignore
    else if ShouldInsertNewline(key, value, cursor) then
      if IsBackslashEnter(key, value, cursor) then
        Emit(Slice(value, 0, cursor - 1) + "\n" + SliceFrom(value, cursor), cursor)
      else
        Emit(Slice(value, 0, cursor) + "\n" + SliceFrom(value, cursor), cursor + 1)
    else if IsPlainEnter(key, value, cursor) then Submit
    else DeletionKey(key, value, cursor)
  }

  /** The deletion bindings, tried after newline and submit. */
  function DeletionKey(key: KeyEvent, value: string, cursor: int): Action
  {
    var lineStart := LineStart(value, cursor);
    var lineEnd := LineEnd(value, cursor);
    var wordStart := PreviousWordBoundary(value, cursor);
    if IsCtrlChord(key, "u") then
      if cursor > lineStart then Emit(Slice(value, 0, lineStart) + SliceFrom(value, cursor), lineStart)
      else if cursor > 0 then Emit(Slice(value, 0, cursor - 1) + SliceFrom(value, cursor), cursor - 1)
      else Consume
    else if (key.name == "backspace" && IsAltLike(key)) || (key.ctrl && LowerName(key) == "w") then
      Emit(Slice(value, 0, wordStart) + SliceFrom(value, cursor), wordStart)
    else if IsCtrlChord(key, "k") then
      Change(InputValue(Slice(value, 0, cursor) + SliceFrom(value, lineEnd), cursor, true))
    else if key.name == "backspace" && Unmodified(key) then
      if cursor > 0 then Emit(Slice(value, 0, cursor - 1) + SliceFrom(value, cursor), cursor - 1) else Consume
    else if key.name == "delete" && Unmodified(key) then
      if cursor < |value| then Emit(Slice(value, 0, cursor) + SliceFrom(value, cursor + 1), cursor) else Consume
    else NavigationKey(key, value, cursor)
  }

  /** The cursor-movement bindings, tried after the deletions. */
  function NavigationKey(key: KeyEvent, value: string, cursor: int): Action
  {
    if IsAltLike(key) && key.name == "left" then Emit(value, PreviousWordBoundary(value, cursor))
    else if IsAltLike(key) && key.name == "right" then Emit(value, NextWordBoundary(value, cursor))
    else if (key.meta && key.name == "left" && !IsAltLike(key)) || IsCtrlChord(key, "a")
         || (key.name == "home" && !key.ctrl && !key.meta) then
      Emit(value, LineStart(value, cursor))
    else if (key.meta && key.name == "right" && !IsAltLike(key)) || IsCtrlChord(key, "e")
         || (key.name == "end" && !key.ctrl && !key.meta) then
      Emit(value, LineEnd(value, cursor))
    else if key.meta && key.name == "up" then Emit(value, 0)
    else if key.meta && key.name == "down" then Emit(value, |value|)
    else if key.name == "left" && Unmodified(key) then MoveCursor(value, cursor, cursor - 1)
    else if key.name == "right" && Unmodified(key) then MoveCursor(value, cursor, cursor + 1)
    else if key.name == "up" && Unmodified(key) then MoveCursor(value, cursor, 0)
    else if key.name == "down" && Unmodified(key) then MoveCursor(value, cursor, |value|)
    else InsertionKey(key, value, cursor)
  }

  /** The insertion bindings, tried last: Tab, then one printable character. */
  function InsertionKey(key: KeyEvent, value: string, cursor: int): Action
  {
    if key.name == "tab" && key.sequence != "" && !key.shift && Unmodified(key) then
      InsertAtCursor(value, cursor, "  ")
    else if |key.sequence| == 1 && Unmodified(key) && !HasControlChar(key.sequence) then
      InsertAtCursor(value, cursor, key.sequence)
    else Ignore
  }

  /** A cursor inside the buffer, as both input stores keep it. */
  predicate InRange(value: string, cursor: int)
  {
    0 <= cursor <= |value|
  }

  // ---------------------------------------------------------------------------
  // Properties of the handler
  // ---------------------------------------------------------------------------

  /** Unfocused input, or a key the interceptor took, does nothing. */
  lemma IgnoredWhenUnfocusedOrIntercepted(focused: bool, intercepted: bool, key: KeyEvent, value: string, cursor: int)
    requires !focused || intercepted
    ensures HandleKey(focused, intercepted, key, value, cursor) == Ignore
  {
  }

  /** Every value the handler emits keeps the cursor inside the new text. */
  lemma EmittedCursorInRange(key: KeyEvent, value: string, cursor: int)
    requires InRange(value, cursor)
    ensures var a := HandleKey(true, false, key, value, cursor);
      a.Change? ==> InRange(a.value.text, a.value.cursorPosition)
  {
    if !ShouldInsertNewline(key, value, cursor) && !IsPlainEnter(key, value, cursor) {
      DeletionKeyInRange(key, value, cursor);
    }
  }

  lemma DeletionKeyInRange(key: KeyEvent, value: string, cursor: int)
    requires InRange(value, cursor)
    ensures var a := DeletionKey(key, value, cursor);
      a.Change? ==> InRange(a.value.text, a.value.cursorPosition)
  {
    var a := DeletionKey(key, value, cursor);
    var ls := LineStart(value, cursor);
    var le := LineEnd(value, cursor);
    var ws := PreviousWordBoundary(value, cursor);
    assert ls <= cursor <= le <= |value| && ws <= cursor;
    if IsCtrlChord(key, "u") {
      if cursor > ls {
        assert a == Emit(value[..ls] + value[cursor..], ls);
      } else if cursor > 0 {
        assert a == Emit(value[..cursor - 1] + value[cursor..], cursor - 1);
      }
    } else if (key.name == "backspace" && IsAltLike(key)) || (key.ctrl && LowerName(key) == "w") {
      assert a == Emit(value[..ws] + value[cursor..], ws);
    } else if IsCtrlChord(key, "k") {
      assert a == Change(InputValue(value[..cursor] + value[le..], cursor, true));
    } else if key.name == "backspace" && Unmodified(key) {
      if cursor > 0 {
        assert a == Emit(value[..cursor - 1] + value[cursor..], cursor - 1);
      }
    } else if key.name == "delete" && Unmodified(key) {
      if cursor < |value| {
        assert a == Emit(value[..cursor] + value[cursor + 1..], cursor);
      }
    } else {
      NavigationKeyInRange(key, value, cursor);
    }
  }

  lemma NavigationKeyInRange(key: KeyEvent, value: string, cursor: int)
    requires InRange(value, cursor)
    ensures var a := NavigationKey(key, value, cursor);
      a.Change? ==> InRange(a.value.text, a.value.cursorPosition)
  {
    var a := NavigationKey(key, value, cursor);
    var start := Start(value, cursor);
    if IsAltLike(key) && (key.name == "left" || key.name == "right") {
      assert a == Emit(value, PreviousWordBoundary(value, cursor)) || a == Emit(value, NextWordBoundary(value, cursor));
    } else if (key.meta && key.name == "left" && !IsAltLike(key)) || IsCtrlChord(key, "a")
         || (key.name == "home" && !key.ctrl && !key.meta) {
      assert a == Emit(value, ScanToLineStart(value, start));
    } else if (key.meta && key.name == "right" && !IsAltLike(key)) || IsCtrlChord(key, "e")
         || (key.name == "end" && !key.ctrl && !key.meta) {
      assert a == Emit(value, ScanToLineEnd(value, start));
    } else if key.meta && (key.name == "up" || key.name == "down") {
    } else if Unmodified(key) && (key.name == "left" || key.name == "right" || key.name == "up" || key.name == "down") {
      assert a.Change? ==> a.value.text == value;
    } else {
      assert a == InsertionKey(key, value, cursor);
      InsertionKeyInRange(key, value, cursor);
    }
  }

  /** Inserting at a cursor inside the buffer leaves the cursor after the
      inserted text, inside the new buffer. */
  lemma InsertionKeyInRange(key: KeyEvent, value: string, cursor: int)
    requires InRange(value, cursor)
    ensures var a := InsertionKey(key, value, cursor);
      a.Change? ==> InRange(a.value.text, a.value.cursorPosition)
  {
    forall t: string ensures var a := InsertAtCursor(value, cursor, t); a.Change? ==> InRange(a.value.text, a.value.cursorPosition) {
      assert |Slice(value, 0, cursor) + t + SliceFrom(value, cursor)| == |value| + |t|;
    }
  }

  /** Enter right after a backslash replaces the backslash with a newline and
      leaves the cursor where it was, whatever modifiers are held. */
  lemma BackslashEnterReplacesBackslash(key: KeyEvent, value: string, cursor: int)
    requires InRange(value, cursor)
    requires IsEnterKey(key) && cursor > 0 && value[cursor - 1] == '\\'
    ensures HandleKey(true, false, key, value, cursor)
         == Emit(value[..cursor - 1] + "\n" + value[cursor..], cursor)
  {
  }

  /** The example "ab\" with the cursor at the end becomes "ab" and a newline. */
  lemma BackslashEnterExample()
    ensures HandleKey(true, false, KeyEvent("return", "\r", false, false, false, false), "ab\\", 3)
         == Emit("ab\n", 3)
  {
    assert CharAt("ab\\", 2) == Some('\\');
    assert Slice("ab\\", 0, 2) == "ab";
    assert SliceFrom("ab\\", 3) == "";
  }

  /** Shift+Enter, Option+Enter, an escape-prefixed Enter, Ctrl+J and Ctrl+Enter
      insert a newline at the cursor and step past it. */
  lemma NewlineChordInsertsNewline(key: KeyEvent, value: string, cursor: int)
    requires InRange(value, cursor)
    requires ShouldInsertNewline(key, value, cursor) && !IsBackslashEnter(key, value, cursor)
    ensures HandleKey(true, false, key, value, cursor)
         == Emit(value[..cursor] + "\n" + value[cursor..], cursor + 1)
  {
  }

  /** Submission happens exactly for a plain Enter: a carriage-return sequence
      with no modifier, no escape prefix and no backslash before the cursor. */
  lemma SubmitIffPlainEnter(focused: bool, intercepted: bool, key: KeyEvent, value: string, cursor: int)
    ensures HandleKey(focused, intercepted, key, value, cursor) == Submit
        <==> focused && !intercepted && IsPlainEnter(key, value, cursor)
  {
    if IsPlainEnter(key, value, cursor) {
      assert !IsCtrlJ(key) && !IsShiftEnter(key) && !IsOptionEnter(key);
    }
  }

  /** Ctrl+U deletes back to the start of the line; at a line start it deletes
      the newline before the cursor instead, and at offset 0 the key is only
      consumed. */
  lemma CtrlUDeletesToLineStart(key: KeyEvent, value: string, cursor: int)
    requires InRange(value, cursor)
    requires IsCtrlChord(key, "u")
    ensures var ls := LineStart(value, cursor); var a := HandleKey(true, false, key, value, cursor);
      && (cursor > ls ==> a == Emit(value[..ls] + value[cursor..], ls))
      && (cursor == ls && cursor > 0 ==> a == Emit(value[..cursor - 1] + value[cursor..], cursor - 1))
      && (cursor == 0 ==> a == Consume)
  {
    assert !IsEnterKey(key) by { assert |LowerName(key)| == |key.name|; }
  }

  /** Ctrl+W, or Backspace with an Alt-like modifier, deletes back to the previous word boundary. */
  lemma DeleteWordBackward(key: KeyEvent, value: string, cursor: int)
    requires InRange(value, cursor)
    requires (key.name == "backspace" && IsAltLike(key)) || (key.ctrl && LowerName(key) == "w")
    ensures var ws := PreviousWordBoundary(value, cursor);
      HandleKey(true, false, key, value, cursor) == Emit(value[..ws] + value[cursor..], ws)
  {
    assert !IsEnterKey(key) by { assert |LowerName(key)| == |key.name|; }
    assert !IsCtrlChord(key, "u") by { assert LowerName(key) == Lower(key.name); }
  }

  /** Ctrl+K deletes to the end of the line, keeps the cursor, and is the only
      edit marked as navigation. */
  lemma CtrlKDeletesToLineEnd(key: KeyEvent, value: string, cursor: int)
    requires InRange(value, cursor)
    requires IsCtrlChord(key, "k")
    ensures var le := LineEnd(value, cursor);
      HandleKey(true, false, key, value, cursor) == Change(InputValue(value[..cursor] + value[le..], cursor, true))
  {
    assert !IsEnterKey(key) by { assert |LowerName(key)| == |key.name|; }
  }

  lemma OnlyCtrlKIsNavigationEdit(key: KeyEvent, value: string, cursor: int)
    ensures var a := HandleKey(true, false, key, value, cursor);
      a.Change? && a.value.lastEditDueToNav ==> IsCtrlChord(key, "k")
  {
  }

  /** Plain Backspace deletes the character before the cursor; at offset 0 the
      key is still consumed. */
  lemma BackspaceDeletesPrevious(key: KeyEvent, value: string, cursor: int)
    requires InRange(value, cursor)
    requires key.name == "backspace" && Unmodified(key) && !IsAltLike(key)
    ensures var a := HandleKey(true, false, key, value, cursor);
      && (cursor > 0 ==> a == Emit(value[..cursor - 1] + value[cursor..], cursor - 1))
      && (cursor == 0 ==> a == Consume)
  {
  }

  /** Plain Delete deletes the character at the cursor; at the end the key is
      still consumed. */
  lemma DeleteRemovesNext(key: KeyEvent, value: string, cursor: int)
    requires InRange(value, cursor)
    requires key.name == "delete" && Unmodified(key)
    ensures var a := HandleKey(true, false, key, value, cursor);
      && (cursor < |value| ==> a == Emit(value[..cursor] + value[cursor + 1..], cursor))
      && (cursor == |value| ==> a == Consume)
  {
  }

  /** Alt+Left and Alt+Right jump to the word boundaries and always emit, even
      when the cursor does not move. */
  lemma AltArrowsJumpWords(key: KeyEvent, value: string, cursor: int)
    requires InRange(value, cursor)
    requires IsAltLike(key) && (key.name == "left" || key.name == "right")
    ensures key.name == "left" ==> HandleKey(true, false, key, value, cursor) == Emit(value, PreviousWordBoundary(value, cursor))
    ensures key.name == "right" ==> HandleKey(true, false, key, value, cursor) == Emit(value, NextWordBoundary(value, cursor))
  {
    assert !IsCtrlChord(key, "u") && !IsCtrlChord(key, "k") by { assert key.option || !key.option; }
  }

  /** Home (no Ctrl or Meta) goes to the line start and End to the line end. */
  lemma HomeEndGoToLineEdges(key: KeyEvent, value: string, cursor: int)
    requires InRange(value, cursor)
    requires (key.name == "home" || key.name == "end") && !key.ctrl && !key.meta && !IsAltLike(key)
    ensures key.name == "home" ==> HandleKey(true, false, key, value, cursor) == Emit(value, LineStart(value, cursor))
    ensures key.name == "end" ==> HandleKey(true, false, key, value, cursor) == Emit(value, LineEnd(value, cursor))
  {
  }

  /** Plain arrows move by one (left, right) or to the ends (up, down), clamped
      into the buffer; when the cursor would not move they emit nothing but
      are still consumed. */
  lemma ArrowsMoveClamped(key: KeyEvent, value: string, cursor: int)
    requires InRange(value, cursor)
    requires Unmodified(key) && !IsAltLike(key)
    ensures key.name == "left" ==>
      HandleKey(true, false, key, value, cursor) == (if cursor == 0 then Consume else Emit(value, cursor - 1))
    ensures key.name == "right" ==>
      HandleKey(true, false, key, value, cursor) == (if cursor == |value| then Consume else Emit(value, cursor + 1))
    ensures key.name == "up" ==>
      HandleKey(true, false, key, value, cursor) == (if cursor == 0 then Consume else Emit(value, 0))
    ensures key.name == "down" ==>
      HandleKey(true, false, key, value, cursor) == (if cursor == |value| then Consume else Emit(value, |value|))
  {
  }

  /** Tab (with a sequence, no modifier) inserts two spaces at the cursor. */
  lemma TabInsertsTwoSpaces(key: KeyEvent, value: string, cursor: int)
    requires InRange(value, cursor)
    requires key.name == "tab" && key.sequence != "" && !key.shift && Unmodified(key) && !IsAltLike(key)
    ensures HandleKey(true, false, key, value, cursor) == Emit(value[..cursor] + "  " + value[cursor..], cursor + 2)
  {
  }

  /** A printable single character with no modifier is inserted at the cursor. */
  lemma PrintableCharInserted(name: string, c: char, value: string, cursor: int)
    requires InRange(value, cursor)
    requires !IsControlChar(c) && c != ESC
    requires name !in {"return", "enter", "backspace", "delete", "left", "right", "up", "down", "home", "end", "tab"}
    ensures HandleKey(true, false, KeyEvent(name, [c], false, false, false, false), value, cursor)
         == Emit(value[..cursor] + [c] + value[cursor..], cursor + 1)
  {
    var key := KeyEvent(name, [c], false, false, false, false);
    assert !HasControlChar(key.sequence) by {
      forall i | 0 <= i < |key.sequence| ensures !IsControlChar(key.sequence[i]) {
        assert key.sequence[i] == c;
      }
    }
  }

  /** A control character on its own (no modifier, not a key with a binding)
      matches no binding, so it is not consumed. */
  lemma ControlCharIgnored(name: string, c: char, value: string, cursor: int)
    requires IsControlChar(c) && c != ESC
    requires name !in {"return", "enter", "backspace", "delete", "left", "right", "up", "down", "home", "end", "tab"}
    ensures HandleKey(true, false, KeyEvent(name, [c], false, false, false, false), value, cursor) == Ignore
  {
    var key := KeyEvent(name, [c], false, false, false, false);
    assert IsControlChar(key.sequence[0]);
  }

  /** The bindings of the handler, in its order: the key matches one of them. */
  predicate Bound(key: KeyEvent, value: string, cursor: int)
  {
    || ShouldInsertNewline(key, value, cursor)
    || IsPlainEnter(key, value, cursor)
    || DeletionBound(key)
  }

  /** The guards of the deletion bindings, then of everything after them. */
  predicate DeletionBound(key: KeyEvent)
  {
    || IsCtrlChord(key, "u")
    || (key.name == "backspace" && IsAltLike(key)) || (key.ctrl && LowerName(key) == "w")
    || IsCtrlChord(key, "k")
    || (key.name in {"backspace", "delete"} && Unmodified(key))
    || NavigationBound(key)
  }

  /** The guards of the cursor-movement bindings, then of the insertions. */
  predicate NavigationBound(key: KeyEvent)
  {
    || (IsAltLike(key) && key.name in {"left", "right"})
    || (key.meta && key.name in {"left", "right"} && !IsAltLike(key))
    || IsCtrlChord(key, "a") || IsCtrlChord(key, "e")
    || (key.name in {"home", "end"} && !key.ctrl && !key.meta)
    || (key.meta && key.name in {"up", "down"})
    || (Unmodified(key) && key.name in {"left", "right", "up", "down"})
    || InsertionBound(key)
  }

  /** The guards of Tab and of a printable character. */
  predicate InsertionBound(key: KeyEvent)
  {
    || (key.name == "tab" && key.sequence != "" && !key.shift && Unmodified(key))
    || (|key.sequence| == 1 && Unmodified(key) && !HasControlChar(key.sequence))
  }

  lemma InsertionPreventedIff(key: KeyEvent, value: string, cursor: int)
    ensures Prevented(InsertionKey(key, value, cursor)) <==> InsertionBound(key)
  {
  }

  lemma NavigationPreventedIff(key: KeyEvent, value: string, cursor: int)
    ensures Prevented(NavigationKey(key, value, cursor)) <==> NavigationBound(key)
  {
    InsertionPreventedIff(key, value, cursor);
  }

  lemma DeletionPreventedIff(key: KeyEvent, value: string, cursor: int)
    ensures Prevented(DeletionKey(key, value, cursor)) <==> DeletionBound(key)
  {
    NavigationPreventedIff(key, value, cursor);
  }

  /** A focused, uninterrupted handler stops the key's default handling
      exactly when some binding matches it, whether or not that binding then
      changes the input. */
  lemma PreventedIffBound(key: KeyEvent, value: string, cursor: int)
    ensures Prevented(HandleKey(true, false, key, value, cursor)) <==> Bound(key, value, cursor)
  {
    DeletionPreventedIff(key, value, cursor);
  }
}
