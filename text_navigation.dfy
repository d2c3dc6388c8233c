/** Cursor movement over a text buffer (cli/src/utils/text-navigation.ts).
    Each search clamps the cursor into [0, |text|] and then walks a position
    backward or forward; the functions below state where each walk stops and
    the methods are the walks themselves. The older input component carries a
    character-for-character copy of these four helpers, so they model it too. */
module TextNavigation {
  import opened Common

  /** The clamped starting position every search begins from. */
  function Start(text: string, cursor: int): (p: nat)
    ensures p <= |text|
  {
    Clamp(cursor, 0, |text|)
  }

  /** Walk left from `pos` until the previous character is a newline. */
  function ScanToLineStart(text: string, pos: nat): (r: nat)
    requires pos <= |text|
    ensures r <= pos
    ensures r == 0 || text[r - 1] == '\n'
    ensures forall j :: r <= j < pos ==> text[j] != '\n'
    decreases pos
  {
    if pos > 0 && text[pos - 1] != '\n' then ScanToLineStart(text, pos - 1) else pos
  }

  /** Walk right from `pos` until the current character is a newline. */
  function ScanToLineEnd(text: string, pos: nat): (r: nat)
    requires pos <= |text|
    ensures pos <= r <= |text|
    ensures r == |text| || text[r] == '\n'
    ensures forall j :: pos <= j < r ==> text[j] != '\n'
    decreases |text| - pos
  {
    if pos < |text| && text[pos] != '\n' then ScanToLineEnd(text, pos + 1) else pos
  }

  /** Walk left over white space. */
  function SkipSpaceBack(text: string, pos: nat): (r: nat)
    requires pos <= |text|
    ensures r <= pos
    ensures r == 0 || !IsSpace(text[r - 1])
    ensures forall j :: r <= j < pos ==> IsSpace(text[j])
    decreases pos
  {
    if pos > 0 && IsSpace(text[pos - 1]) then SkipSpaceBack(text, pos - 1) else pos
  }

  /** Walk left over non-white-space. */
  function SkipWordBack(text: string, pos: nat): (r: nat)
    requires pos <= |text|
    ensures r <= pos
    ensures r == 0 || IsSpace(text[r - 1])
    ensures forall j :: r <= j < pos ==> !IsSpace(text[j])
    decreases pos
  {
    if pos > 0 && !IsSpace(text[pos - 1]) then SkipWordBack(text, pos - 1) else pos
  }

  /** Walk right over non-white-space. */
  function SkipWordForward(text: string, pos: nat): (r: nat)
    requires pos <= |text|
    ensures pos <= r <= |text|
    ensures r == |text| || IsSpace(text[r])
    ensures forall j :: pos <= j < r ==> !IsSpace(text[j])
    decreases |text| - pos
  {
    if pos < |text| && !IsSpace(text[pos]) then SkipWordForward(text, pos + 1) else pos
  }

  /** Walk right over white space. */
  function SkipSpaceForward(text: string, pos: nat): (r: nat)
    requires pos <= |text|
    ensures pos <= r <= |text|
    ensures r == |text| || !IsSpace(text[r])
    ensures forall j :: pos <= j < r ==> IsSpace(text[j])
    decreases |text| - pos
  {
    if pos < |text| && IsSpace(text[pos]) then SkipSpaceForward(text, pos + 1) else pos
  }

  /** Where `findLineStart` stops. */
  function LineStart(text: string, cursor: int): nat
  {
    ScanToLineStart(text, Start(text, cursor))
  }

  /** Where `findLineEnd` stops. */
  function LineEnd(text: string, cursor: int): nat
  {
    ScanToLineEnd(text, Start(text, cursor))
  }

  /** Where `findPreviousWordBoundary` stops: trailing white space first, then the word. */
  function PreviousWordBoundary(text: string, cursor: int): nat
  {
    SkipWordBack(text, SkipSpaceBack(text, Start(text, cursor)))
  }

  /** Where `findNextWordBoundary` stops: the rest of the word first, then the white space. */
  function NextWordBoundary(text: string, cursor: int): nat
  {
    SkipSpaceForward(text, SkipWordForward(text, Start(text, cursor)))
  }

  method FindLineStart(text: string, cursor: int) returns (pos: nat)
    ensures pos == LineStart(text, cursor)
    ensures pos <= Start(text, cursor)
    ensures pos == 0 || text[pos - 1] == '\n'
    ensures forall j :: pos <= j < Start(text, cursor) ==> text[j] != '\n'
  {
    pos := Clamp(cursor, 0, |text|);
    while pos > 0 && text[pos - 1] != '\n'
      invariant pos <= |text|
      invariant ScanToLineStart(text, pos) == LineStart(text, cursor)
      decreases pos
    {
      pos := pos - 1;
    }
  }

  method FindLineEnd(text: string, cursor: int) returns (pos: nat)
    ensures pos == LineEnd(text, cursor)
    ensures Start(text, cursor) <= pos <= |text|
    ensures pos == |text| || text[pos] == '\n'
    ensures forall j :: Start(text, cursor) <= j < pos ==> text[j] != '\n'
  {
    pos := Clamp(cursor, 0, |text|);
    while pos < |text| && text[pos] != '\n'
      invariant pos <= |text|
      invariant ScanToLineEnd(text, pos) == LineEnd(text, cursor)
      decreases |text| - pos
    {
      pos := pos + 1;
    }
  }

  method FindPreviousWordBoundary(text: string, cursor: int) returns (pos: nat)
    ensures pos == PreviousWordBoundary(text, cursor)
    ensures pos <= Start(text, cursor)
    ensures pos == 0 || IsSpace(text[pos - 1])
  {
    pos := Clamp(cursor, 0, |text|);
    while pos > 0 && IsSpace(text[pos - 1])
      invariant pos <= |text|
      invariant SkipSpaceBack(text, pos) == SkipSpaceBack(text, Start(text, cursor))
      decreases pos
    {
      pos := pos - 1;
    }
    while pos > 0 && !IsSpace(text[pos - 1])
      invariant pos <= |text|
      invariant SkipWordBack(text, pos) == PreviousWordBoundary(text, cursor)
      decreases pos
    {
      pos := pos - 1;
    }
  }

  method FindNextWordBoundary(text: string, cursor: int) returns (pos: nat)
    ensures pos == NextWordBoundary(text, cursor)
    ensures Start(text, cursor) <= pos <= |text|
    ensures pos == |text| || !IsSpace(text[pos])
  {
    pos := Clamp(cursor, 0, |text|);
    while pos < |text| && !IsSpace(text[pos])
      invariant Start(text, cursor) <= pos <= |text|
      invariant SkipWordForward(text, pos) == SkipWordForward(text, Start(text, cursor))
      decreases |text| - pos
    {
      pos := pos + 1;
    }
    while pos < |text| && IsSpace(text[pos])
      invariant Start(text, cursor) <= pos <= |text|
      invariant SkipSpaceForward(text, pos) == NextWordBoundary(text, cursor)
      decreases |text| - pos
    {
      pos := pos + 1;
    }
  }

  /** A line start is a fixed point of the backward walk. */
  lemma {:induction false} LineStartIdempotent(text: string, cursor: int)
    ensures LineStart(text, LineStart(text, cursor)) == LineStart(text, cursor)
  {
    var p := LineStart(text, cursor);
    assert Start(text, p) == p;
  }

  /** A line end is a fixed point of the forward walk. */
  lemma {:induction false} LineEndIdempotent(text: string, cursor: int)
    ensures LineEnd(text, LineEnd(text, cursor)) == LineEnd(text, cursor)
  {
    var p := LineEnd(text, cursor);
    assert Start(text, p) == p;
  }

  /** Out-of-range cursors behave like the cursor clamped into the buffer. */
  lemma ClampedCursorEquivalent(text: string, cursor: int)
    ensures LineStart(text, cursor) == LineStart(text, Clamp(cursor, 0, |text|))
    ensures LineEnd(text, cursor) == LineEnd(text, Clamp(cursor, 0, |text|))
    ensures PreviousWordBoundary(text, cursor) == PreviousWordBoundary(text, Clamp(cursor, 0, |text|))
    ensures NextWordBoundary(text, cursor) == NextWordBoundary(text, Clamp(cursor, 0, |text|))
  {
  }

  /** The previous word boundary: the walk skipped only white space and then
      only word characters, and stops after white space or at the start. */
  lemma PreviousWordBoundaryShape(text: string, cursor: int)
    ensures var c := Start(text, cursor); var q := SkipSpaceBack(text, c);
      var p := PreviousWordBoundary(text, cursor);
      && p <= q <= c
      && (p == 0 || IsSpace(text[p - 1]))
      && (forall j :: p <= j < q ==> !IsSpace(text[j]))
      && (forall j :: q <= j < c ==> IsSpace(text[j]))
  {
  }

  /** The next word boundary: the walk skipped only word characters and then
      only white space, and stops on a word character or at the end. */
  lemma NextWordBoundaryShape(text: string, cursor: int)
    ensures var c := Start(text, cursor); var q := SkipWordForward(text, c);
      var p := NextWordBoundary(text, cursor);
      && c <= q <= p <= |text|
      && (p == |text| || !IsSpace(text[p]))
      && (forall j :: c <= j < q ==> !IsSpace(text[j]))
      && (forall j :: q <= j < p ==> IsSpace(text[j]))
  {
  }

  /** On the empty buffer every search returns 0. */
  lemma EmptyTextAllZero(cursor: int)
    ensures LineStart("", cursor) == 0 && LineEnd("", cursor) == 0
    ensures PreviousWordBoundary("", cursor) == 0 && NextWordBoundary("", cursor) == 0
  {
  }
}
