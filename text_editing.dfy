/** Text editing helpers (cli/src/utils/text-editing.ts): insertion and range
    deletion on a (text, cursor) pair, tab expansion for rendering, and the
    mapping from a code-unit cursor to a rendered column. */
module TextEditing {
  import opened Common

  const TAB_WIDTH: nat := 4

  /** The (text, cursor) pair the helpers return. */
  datatype Edit = Edit(text: string, cursor: int)

  /** One character of `CONTROL_CHAR_REGEX`'s class. */
  predicate IsControlChar(c: char)
  {
    c <= '\U{0008}' || ('\U{000B}' <= c <= '\U{000C}') || ('\U{000E}' <= c <= '\U{001F}') || c == '\U{007F}'
  }

  /** `CONTROL_CHAR_REGEX.test(s)`: some character of s is in the class. */
  predicate HasControlChar(s: string)
  {
    exists i :: 0 <= i < |s| && IsControlChar(s[i])
  }

  /** The class is exactly U+0000-0008, U+000B-000C, U+000E-001F and U+007F:
      tab, line feed and carriage return are not control characters here. */
  lemma ControlCharClass(c: char)
    ensures IsControlChar(c) <==> (0 <= c as int <= 8 || 11 <= c as int <= 12 || 14 <= c as int <= 31 || c as int == 127)
    ensures !IsControlChar('\t') && !IsControlChar('\n') && !IsControlChar('\r')
  {
  }

  /** `insertText`: the insertion lands at the cursor and the cursor moves past it. */
  function InsertText(text: string, cursor: int, insertion: string): (r: Edit)
    ensures 0 <= cursor <= |text| ==>
      && r.text == text[..cursor] + insertion + text[cursor..]
      && r.cursor == cursor + |insertion|
      && |r.text| == |text| + |insertion|
      && r.text[cursor..r.cursor] == insertion
  {
    Edit(Slice(text, 0, cursor) + insertion + SliceFrom(text, cursor), cursor + |insertion|)
  }

  /** `deleteRange`: exactly text[start..end) disappears and the cursor goes to start. */
  function DeleteRange(text: string, start: int, end: int): (r: Edit)
    ensures 0 <= start <= end <= |text| ==>
      && r.text == text[..start] + text[end..]
      && r.cursor == start
      && |r.text| == |text| - (end - start)
      && r.text[..start] == text[..start]
      && r.text[start..] == text[end..]
  {
    Edit(Slice(text, 0, start) + SliceFrom(text, end), start)
  }

  function Repeat(c: char, n: nat): (r: string)
    ensures |r| == n
    ensures forall i :: 0 <= i < n ==> r[i] == c
  {
    if n == 0 then [] else [c] + Repeat(c, n - 1)
  }

  function CountTabs(s: string): nat
  {
    if s == [] then 0 else (if s[0] == '\t' then 1 else 0) + CountTabs(s[1..])
  }

  /** `expandTabs`: every tab becomes `tabWidth` spaces. */
  function ExpandTabs(text: string, tabWidth: nat): (r: string)
    ensures forall i :: 0 <= i < |r| ==> r[i] != '\t'
    ensures |r| == |text| + (tabWidth - 1) * CountTabs(text)
    ensures CountTabs(text) == 0 ==> r == text
    ensures text == "\t" ==> r == Repeat(' ', tabWidth)
  {
    if text == [] then []
    else
      var rest := ExpandTabs(text[1..], tabWidth);
      if text[0] == '\t' then
        assert (tabWidth - 1) * (CountTabs(text[1..]) + 1) == (tabWidth - 1) * CountTabs(text[1..]) + tabWidth - 1;
        Repeat(' ', tabWidth) + rest
      else [text[0]] + rest
  }

  lemma {:induction false} ExpandTabsAppend(a: string, b: string, tabWidth: nat)
    ensures ExpandTabs(a + b, tabWidth) == ExpandTabs(a, tabWidth) + ExpandTabs(b, tabWidth)
  {
    if a != [] {
      assert (a + b)[0] == a[0] && (a + b)[1..] == a[1..] + b;
      ExpandTabsAppend(a[1..], b, tabWidth);
    } else {
      assert a + b == b;
    }
  }

  /** The column the cursor is rendered at: the width of the expanded text before it. */
  function RenderColumn(text: string, cursor: int, tabWidth: nat): nat
  {
    |ExpandTabs(text[..Clamp(cursor, 0, |text|)], tabWidth)|
  }

  /** `calculateRenderPosition`: a loop over the code units before the cursor. */
  method CalculateRenderPosition(text: string, cursorPosition: int, tabWidth: nat) returns (renderPosition: nat)
    ensures renderPosition == RenderColumn(text, cursorPosition, tabWidth)
  {
    renderPosition := 0;
    var i := 0;
    while i < cursorPosition && i < |text|
      invariant 0 <= i <= |text|
      invariant i <= Clamp(cursorPosition, 0, |text|)
      invariant renderPosition == |ExpandTabs(text[..i], tabWidth)|
    {
      assert text[..i + 1] == text[..i] + [text[i]];
      ExpandTabsAppend(text[..i], [text[i]], tabWidth);
      renderPosition := renderPosition + (if text[i] == '\t' then tabWidth else 1);
      i := i + 1;
    }
  }

  /** Without tabs the rendered column is the clamped cursor itself. */
  lemma RenderColumnWithoutTabs(text: string, cursor: int, tabWidth: nat)
    requires forall i :: 0 <= i < |text| ==> text[i] != '\t'
    ensures RenderColumn(text, cursor, tabWidth) == Clamp(cursor, 0, |text|)
  {
    var k := Clamp(cursor, 0, |text|);
    NoTabsCountZero(text[..k]);
  }

  lemma {:induction false} NoTabsCountZero(s: string)
    requires forall i :: 0 <= i < |s| ==> s[i] != '\t'
    ensures CountTabs(s) == 0
  {
    if s != [] {
      assert s[0] != '\t';
      NoTabsCountZero(s[1..]);
    }
  }

  /** Moving the cursor right never moves the rendered column left, and past
      the end of the text the column no longer changes. */
  lemma RenderColumnMonotone(text: string, c1: int, c2: int, tabWidth: nat)
    requires c1 <= c2
    ensures RenderColumn(text, c1, tabWidth) <= RenderColumn(text, c2, tabWidth)
    ensures c1 >= |text| ==> RenderColumn(text, c1, tabWidth) == RenderColumn(text, c2, tabWidth)
  {
    var k1 := Clamp(c1, 0, |text|);
    var k2 := Clamp(c2, 0, |text|);
    assert text[..k2] == text[..k1] + text[k1..k2];
    ExpandTabsAppend(text[..k1], text[k1..k2], tabWidth);
  }
}
