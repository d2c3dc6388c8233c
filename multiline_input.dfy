/** What the two multiline input components add around the key handler
    (cli/src/components/multiline-input.tsx and cli/src/components/input/MultilineInput.tsx):
    paste insertion through a pair of refs, the placeholder and cursor flags,
    slash-command prefix detection, cursor highlighting and the height of the
    input box. Key editing itself is `InputKeyboard.HandleKey` in both. */
module MultilineInput {
  import opened Common
  import opened ChatTypes
  import opened TextEditing

  /** The latest value and cursor, held in refs so that a second paste before
      the next render builds on the first one. */
  class InputRefs {
    var value: string
    var cursor: int

    constructor (value: string, cursor: int)
      ensures this.value == value && this.cursor == cursor
    {
      this.value := value;
      this.cursor := cursor;
    }

    /** The effect that copies the rendered props into the refs. */
    method Sync(value: string, cursor: int)
      modifies this
      ensures this.value == value && this.cursor == cursor
    {
      this.value := value;
      this.cursor := cursor;
    }

    /** `handlePaste`: nothing when unfocused or for an empty paste; otherwise
        the text goes in at the ref cursor, the refs move on, and the new value
        is emitted. */
    method HandlePaste(focused: bool, text: string) returns (emitted: Option<InputValue>)
      modifies this
      ensures !focused || text == "" ==> emitted == None && value == old(value) && cursor == old(cursor)
      ensures focused && text != "" ==>
        && value == InsertText(old(value), old(cursor), text).text
        && cursor == old(cursor) + |text|
        && emitted == Some(InputValue(value, cursor, false))
    {
      if !focused || text == "" {
        return None;
      }
      var currentValue := value;
      var currentCursor := cursor;
      var newValue := Slice(currentValue, 0, currentCursor) + text + SliceFrom(currentValue, currentCursor);
      var newCursor := currentCursor + |text|;
      value := newValue;
      cursor := newCursor;
      emitted := Some(InputValue(newValue, newCursor, false));
    }
  }

  /** Pasting `a` and then `b` before the next render is the same as pasting `a + b`,
      and an in-range cursor stays in range. */
  lemma PasteTwiceIsPasteOfBoth(v: string, c: int, a: string, b: string)
    requires 0 <= c <= |v|
    ensures var first := InsertText(v, c, a);
      && 0 <= first.cursor <= |first.text|
      && InsertText(first.text, first.cursor, b) == InsertText(v, c, a + b)
  {
    var first := InsertText(v, c, a);
    assert first.text[..c + |a|] == v[..c] + a;
    assert first.text[c + |a|..] == v[c..];
  }

  /** Two pastes through the refs, as the paste handler sees them. */
  method PasteTwice(refs: InputRefs, a: string, b: string)
    requires 0 <= refs.cursor <= |refs.value| && a != "" && b != ""
    modifies refs
    ensures refs.value == InsertText(old(refs.value), old(refs.cursor), a + b).text
    ensures refs.cursor == old(refs.cursor) + |a| + |b|
  {
    var v, c := refs.value, refs.cursor;
    var first := refs.HandlePaste(true, a);
    var second := refs.HandlePaste(true, b);
    PasteTwiceIsPasteOfBoth(v, c, a, b);
  }

  /** The placeholder shows only for an empty value and a non-empty placeholder. */
  function IsPlaceholder(value: string, placeholder: string): (r: bool)
    ensures r <==> value == "" && placeholder != ""
  {
    |value| == 0 && |placeholder| > 0
  }

  function DisplayValue(value: string, placeholder: string): (r: string)
    ensures IsPlaceholder(value, placeholder) ==> r == placeholder
    ensures !IsPlaceholder(value, placeholder) ==> r == value
    ensures r == "" ==> value == "" && placeholder == ""
  {
    if IsPlaceholder(value, placeholder) then placeholder else value
  }

  /** The older component shows the cursor whenever the input is focused. */
  function OlderShowCursor(focused: bool): bool
  {
    focused
  }

  /** The newer component can also hide the cursor on request. Neither
      component draws a cursor on an unfocused input, and with `hideCursor`
      off the newer one follows the older one's rule. */
  function ShowCursor(focused: bool, hideCursor: bool): (r: bool)
    ensures r ==> OlderShowCursor(focused)
    ensures hideCursor ==> !r
    ensures !hideCursor ==> r == OlderShowCursor(focused)
  {
    focused && !hideCursor
  }

  /** `slashCommandEnd`: 0 unless the value starts with '/', otherwise the
      first space or the end of the value. */
  function SlashCommandEnd(value: string): (r: nat)
    ensures r <= |value|
    ensures r > 0 <==> StartsWith(value, "/")
    ensures StartsWith(value, "/") ==> (r == |value| || value[r] == ' ') && forall j :: 0 <= j < r ==> value[j] != ' '
  {
    if !StartsWith(value, "/") then 0
    else
      var spaceIdx := IndexOfChar(value, ' ', 0);
      if spaceIdx == -1 then |value| else spaceIdx
  }

  /** `shouldHighlight` of the older component: the character under the cursor
      is drawn highlighted. */
  function ShouldHighlight(focused: bool, value: string, placeholder: string, cursor: int): bool
  {
    var showCursor := OlderShowCursor(focused);
    var isPlaceholder := IsPlaceholder(value, placeholder);
    var display := DisplayValue(value, placeholder);
    var render := RenderColumn(display, cursor, TAB_WIDTH);
    showCursor && !isPlaceholder && render < |ExpandTabs(display, TAB_WIDTH)|
    && CharAt(display, cursor) != Some('\n') && CharAt(display, cursor) != Some('\t')
  }

  /** The highlight is on exactly when the input is focused, shows a real
      value rather than the placeholder, and the cursor sits on a character
      that is neither a newline nor a tab. */
  lemma ShouldHighlightIff(focused: bool, value: string, placeholder: string, cursor: int)
    requires 0 <= cursor <= |value|
    ensures ShouldHighlight(focused, value, placeholder, cursor)
        <==> focused && !IsPlaceholder(value, placeholder) && cursor < |value|
             && value[cursor] != '\n' && value[cursor] != '\t'
  {
    if !IsPlaceholder(value, placeholder) {
      assert value == value[..cursor] + value[cursor..];
      ExpandTabsAppend(value[..cursor], value[cursor..], TAB_WIDTH);
    }
  }

  /** How many lines the text buffer reports: one until the width is measured
      and the buffer exists. */
  function TotalLines(measuredCols: Option<int>, lineCount: Option<nat>): nat
  {
    if measuredCols == Some(0) || lineCount == None then 1 else lineCount.value
  }

  /** `layoutMetrics.heightLines`: the line count clamped between the effective
      minimum and the safe maximum. */
  function HeightLines(maxHeight: int, minHeight: int, totalLines: int): (h: int)
    ensures var hi := if maxHeight < 1 then 1 else maxHeight;
      var lo := if minHeight < 1 then 1 else if minHeight > hi then hi else minHeight;
      && 1 <= lo <= h <= hi
      && (lo <= totalLines <= hi ==> h == totalLines)
      && (totalLines > hi ==> h == hi)
      && (totalLines < lo ==> h == lo)
  {
    var safeMaxHeight := Max(1, maxHeight);
    var effectiveMinHeight := Max(1, Min(minHeight, safeMaxHeight));
    var rawHeight := Min(totalLines, safeMaxHeight);
    Max(effectiveMinHeight, rawHeight)
  }

  function Max(a: int, b: int): int { if a < b then b else a }
  function Min(a: int, b: int): int { if a < b then a else b }

  /** With the default heights (5 and 1) the box is between 1 and 5 lines. */
  lemma DefaultHeightBounds(measuredCols: Option<int>, lineCount: Option<nat>)
    ensures 1 <= HeightLines(5, 1, TotalLines(measuredCols, lineCount)) <= 5
    ensures lineCount == None ==> HeightLines(5, 1, TotalLines(measuredCols, lineCount)) == 1
  {
  }
}
