/** The terminal markdown renderer (cli/src/components/markdown.tsx): a line
    loop that recognises ``` fences, headings, list items, numbered items,
    blank lines and paragraphs, and an inline tokenizer for **bold**,
    `code` and *italic*. Rendering the pieces to styled terminal text is not
    modelled; the model produces the pieces themselves. */
module Markdown {
  import opened Common

  /** One inline token: plain text, or the inside of a styled span. */
  datatype Token = Text(s: string) | Bold(s: string) | Code(s: string) | Italic(s: string)

  /** The markdown a token was read from. */
  function Source(t: Token): string
  {
    match t
    case Text(s) => s
    case Bold(s) => "**" + s + "**"
    case Code(s) => "`" + s + "`"
    case Italic(s) => "*" + s + "*"
  }

  function Unparse(tokens: seq<Token>): string
  {
    if tokens == [] then "" else Source(tokens[0]) + Unparse(tokens[1..])
  }

  lemma {:induction false} UnparseCons(t: Token, rest: seq<Token>)
    ensures Unparse([t] + rest) == Source(t) + Unparse(rest)
  {
    assert ([t] + rest)[1..] == rest;
  }

  /** The markers plain text stops at, in the order they are searched. */
  const MARKERS: seq<string> := ["**", "*", "`"]

  /** The nearest position at or after `i` where one of `markers` occurs, or
      the length of the text when none does. */
  function NearestMarker(text: string, i: nat, markers: seq<string>): (r: nat)
    requires i <= |text|
    requires forall k :: 0 <= k < |markers| ==> markers[k] != []
    ensures i <= r <= |text|
  {
    if markers == [] then |text|
    else
      var m := NearestMarker(text, i, markers[..|markers| - 1]);
      var idx := IndexOf(text, markers[|markers| - 1], i);
      if idx != -1 && idx < m then idx else m
  }

  /** Where a bold span opened at `i` closes, if it does. */
  function BoldClose(text: string, i: nat): (r: Option<nat>)
    requires i < |text|
    ensures r.Some? ==> i + 2 <= r.value && r.value + 2 <= |text|
  {
    if Slice(text, i, i + 2) == "**" then
      var e := IndexOf(text, "**", i + 2);
      if e != -1 then
        Some(e)
      else None
    else None
  }

  /** Where a code span opened at `i` closes, if it does. */
  function CodeClose(text: string, i: nat): (r: Option<nat>)
    requires i < |text|
    ensures r.Some? ==> i + 1 <= r.value < |text|
  {
    if text[i] == '`' then
      var e := IndexOf(text, "`", i + 1);
      if e != -1 then
        Some(e)
      else None
    else None
  }

  /** Where an italic span opened at `i` closes, if it does. */
  function ItalicClose(text: string, i: nat): (r: Option<nat>)
    requires i < |text|
    ensures r.Some? ==> i + 1 <= r.value < |text|
  {
    if text[i] == '*' && CharAt(text, i + 1) != Some('*') then
      var e := IndexOf(text, "*", i + 1);
      if e != -1 && CharAt(text, e - 1) != Some('*') then
        Some(e)
      else None
    else None
  }

  /** One iteration of `renderInlineMarkdown`'s tokenizer loop at position
      `i`: the token pushed and where the loop goes on (None: it breaks).
      The tests come in the source's order: bold, code, italic, plain text. */
  function Step(text: string, i: nat): (r: (Token, Option<nat>))
    requires i < |text|
    ensures r.1.Some? ==> i < r.1.value <= |text| && Source(r.0) == text[i..r.1.value]
    ensures r.1.None? ==> r.0 == Text(text[i..])
    ensures r.0.Text? ==> r.0.s != ""
  {
    match BoldClose(text, i)
    case Some(e) =>
      IndexOfFirst(text, "**", i + 2);
      BoldSource(text, i, e);
      (Bold(text[i + 2..e]), Some(e + 2))
    case None => CodeStep(text, i)
  }

  /** The loop at `i` once the bold test has failed. */
  function CodeStep(text: string, i: nat): (r: (Token, Option<nat>))
    requires i < |text|
    ensures r.1.Some? ==> i < r.1.value <= |text| && Source(r.0) == text[i..r.1.value]
    ensures r.1.None? ==> r.0 == Text(text[i..])
    ensures r.0.Text? ==> r.0.s != ""
  {
    match CodeClose(text, i)
    case Some(e) =>
      IndexOfFirst(text, "`", i + 1);
      SpanSource(text, i, e);
      (Code(text[i + 1..e]), Some(e + 1))
    case None => ItalicStep(text, i)
  }

  /** The loop at `i` once the bold and code tests have failed. */
  function ItalicStep(text: string, i: nat): (r: (Token, Option<nat>))
    requires i < |text|
    ensures r.1.Some? ==> i < r.1.value <= |text| && Source(r.0) == text[i..r.1.value]
    ensures r.1.None? ==> r.0 == Text(text[i..])
    ensures r.0.Text? ==> r.0.s != ""
  {
    match ItalicClose(text, i)
    case Some(e) =>
      IndexOfFirst(text, "*", i + 1);
      SpanSource(text, i, e);
      (Italic(text[i + 1..e]), Some(e + 1))
    case None => PlainStep(text, i)
  }

  lemma BoldSource(text: string, i: nat, e: nat)
    requires i + 2 <= e && e + 2 <= |text|
    requires Slice(text, i, i + 2) == "**" && OccursAt(text, "**", e)
    ensures "**" + text[i + 2..e] + "**" == text[i..e + 2]
  {
    assert text[i..e + 2] == text[i..i + 2] + text[i + 2..e] + text[e..e + 2];
  }

  lemma SpanSource(text: string, i: nat, e: nat)
    requires i < e < |text|
    ensures [text[i]] + text[i + 1..e] + [text[e]] == text[i..e + 1]
  {
  }

  /** Plain text up to the nearest marker; the rest of the line when a
      marker is right at `i`. */
  function PlainStep(text: string, i: nat): (r: (Token, Option<nat>))
    requires i < |text|
    ensures r.1.Some? ==> i < r.1.value <= |text| && r.0 == Text(text[i..r.1.value])
    ensures r.1.None? ==> r.0 == Text(text[i..])
  {
    var nextMarker := NearestMarker(text, i, MARKERS);
    if nextMarker > i then (Text(text[i..nextMarker]), Some(nextMarker))
    else (Text(text[i..]), None)
  }

  /** The tokens the loop pushes from position `i` on. */
  function TokensFrom(text: string, i: nat): seq<Token>
    requires i <= |text|
    decreases |text| - i
  {
    if i == |text| then []
    else
      var r := Step(text, i);
      if r.1.None? then [r.0] else [r.0] + TokensFrom(text, r.1.value)
  }

  /** The tokens of one line of inline markdown. */
  function Tokens(text: string): seq<Token>
  {
    TokensFrom(text, 0)
  }

  /** The tokenizer loop of `renderInlineMarkdown`: one token per
      iteration until the text is used up or the loop breaks. */
  method Tokenize(text: string) returns (tokens: seq<Token>)
    ensures tokens == Tokens(text)
  {
    tokens := [];
    var i: nat := 0;
    while i < |text|
      invariant i <= |text|
      invariant tokens + TokensFrom(text, i) == Tokens(text)
      decreases |text| - i
    {
      var token, next := NextToken(text, i);
      tokens := tokens + [token];
      if next.None? {
        assert TokensFrom(text, i) == [token];
        break;
      }
      assert TokensFrom(text, i) == [token] + TokensFrom(text, next.value);
      i := next.value;
    }
  }

  /** The body of the tokenizer loop at position `i`: the bold, code and
      italic tests in that order, then plain text up to the next marker. */
  method NextToken(text: string, i: nat) returns (token: Token, next: Option<nat>)
    requires i < |text|
    ensures (token, next) == Step(text, i)
  {
    var boldEnd := TryBold(text, i);
    if boldEnd.Some? {
      return Bold(text[i + 2..boldEnd.value]), Some(boldEnd.value + 2);
    }
    var codeEnd := TryCode(text, i);
    if codeEnd.Some? {
      return Code(text[i + 1..codeEnd.value]), Some(codeEnd.value + 1);
    }
    var italicEnd := TryItalic(text, i);
    if italicEnd.Some? {
      return Italic(text[i + 1..italicEnd.value]), Some(italicEnd.value + 1);
    }
    var nextMarker := FindNextMarker(text, i);
    if nextMarker > i {
      token, next := Text(text[i..nextMarker]), Some(nextMarker);
    } else {
      token, next := Text(text[i..]), None;
    }
    assert (token, next) == PlainStep(text, i);
  }

  /** The bold test: "**" at `i` and a later "**" to close it. */
  method TryBold(text: string, i: nat) returns (endIdx: Option<nat>)
    requires i < |text|
    ensures endIdx == BoldClose(text, i)
  {
    endIdx := None;
    if Slice(text, i, i + 2) == "**" {
      var e := IndexOf(text, "**", i + 2);
      if e != -1 {
        endIdx := Some(e);
      }
    }
  }

  /** The code test: '`' at `i` and a later '`' to close it. */
  method TryCode(text: string, i: nat) returns (endIdx: Option<nat>)
    requires i < |text|
    ensures endIdx == CodeClose(text, i)
  {
    endIdx := None;
    if text[i] == '`' {
      var e := IndexOf(text, "`", i + 1);
      if e != -1 {
        endIdx := Some(e);
      }
    }
  }

  /** The italic test: a single '*' at `i` and a later '*' that does not
      follow another '*'. */
  method TryItalic(text: string, i: nat) returns (endIdx: Option<nat>)
    requires i < |text|
    ensures endIdx == ItalicClose(text, i)
  {
    endIdx := None;
    if text[i] == '*' && CharAt(text, i + 1) != Some('*') {
      var e := IndexOf(text, "*", i + 1);
      if e != -1 && CharAt(text, e - 1) != Some('*') {
        endIdx := Some(e);
      }
    }
  }

  /** The search for the nearest of the three markers. */
  method FindNextMarker(text: string, i: nat) returns (nextMarker: nat)
    requires i <= |text|
    ensures nextMarker == NearestMarker(text, i, MARKERS)
  {
    nextMarker := |text|;
    for k := 0 to |MARKERS|
      invariant nextMarker == NearestMarker(text, i, MARKERS[..k])
    {
      assert MARKERS[..k + 1][..k] == MARKERS[..k];
      var idx := IndexOf(text, MARKERS[k], i);
      if idx != -1 && idx < nextMarker {
        nextMarker := idx;
      }
    }
    assert MARKERS[..|MARKERS|] == MARKERS;
  }

  /** Reading the tokens back as markdown gives the line again: nothing is
      dropped or duplicated. */
  lemma {:induction false} TokensFromUnparse(text: string, i: nat)
    requires i <= |text|
    ensures Unparse(TokensFrom(text, i)) == text[i..]
    decreases |text| - i
  {
    if i < |text| {
      var r := Step(text, i);
      if r.1.None? {
        UnparseCons(r.0, []);
      } else {
        var j := r.1.value;
        TokensFromUnparse(text, j);
        UnparseCons(r.0, TokensFrom(text, j));
        SplitSlice(text, i, j);
      }
    }
  }

  lemma SplitSlice(text: string, i: nat, j: nat)
    requires i <= j <= |text|
    ensures text[i..j] + text[j..] == text[i..]
  {
  }

  lemma TokensUnparse(text: string)
    ensures Unparse(Tokens(text)) == text
  {
    TokensFromUnparse(text, 0);
  }

  /** No text token is empty. */
  lemma {:induction false} TextTokensNonEmpty(text: string, i: nat)
    requires i <= |text|
    ensures forall k :: 0 <= k < |TokensFrom(text, i)| && TokensFrom(text, i)[k].Text? ==> TokensFrom(text, i)[k].s != ""
    decreases |text| - i
  {
    if i < |text| {
      var r := Step(text, i);
      if r.1.Some? {
        TextTokensNonEmpty(text, r.1.value);
        assert TokensFrom(text, i) == [r.0] + TokensFrom(text, r.1.value);
      } else {
        assert TokensFrom(text, i) == [r.0];
      }
    }
  }

  /** A step that ends the line leaves its token as the last one. */
  lemma LastToken(text: string, i: nat)
    requires i < |text|
    requires Step(text, i).1.None? || Step(text, i).1 == Some(|text|)
    ensures TokensFrom(text, i) == [Step(text, i).0]
  {
  }

  /** With none of `markers` at or after `i`, plain text runs to the end. */
  lemma {:induction false} NearestNone(text: string, i: nat, markers: seq<string>)
    requires i <= |text|
    requires forall k :: 0 <= k < |markers| ==> markers[k] != []
    requires forall k :: 0 <= k < |markers| ==> IndexOf(text, markers[k], i) == -1
    ensures NearestMarker(text, i, markers) == |text|
  {
    if markers != [] {
      NearestNone(text, i, markers[..|markers| - 1]);
    }
  }

  /** With one of `markers` right at `i`, plain text is empty there. */
  lemma {:induction false} NearestAt(text: string, i: nat, markers: seq<string>, k: nat)
    requires i <= |text|
    requires forall k :: 0 <= k < |markers| ==> markers[k] != []
    requires k < |markers| && OccursAt(text, markers[k], i)
    ensures NearestMarker(text, i, markers) == i
  {
    if k == |markers| - 1 {
      IndexOfAt(text, markers[k], i, i);
    } else {
      NearestAt(text, i, markers[..|markers| - 1], k);
    }
  }

  /** A character that is not the first of any marker. */
  predicate Plain(c: char)
  {
    c != '*' && c != '`'
  }

  /** No marker turns up where every character from `i` on is plain. */
  lemma NoMarkers(text: string, i: nat)
    requires i <= |text|
    requires forall j :: i <= j < |text| ==> Plain(text[j])
    ensures NearestMarker(text, i, MARKERS) == |text|
  {
    forall k, j | 0 <= k < |MARKERS| && i <= j <= |text|
      ensures !OccursAt(text, MARKERS[k], j)
    {
      if j < |text| {
        NotOccursAt(text, MARKERS[k], j);
      }
    }
    forall k | 0 <= k < |MARKERS|
      ensures IndexOf(text, MARKERS[k], i) == -1
    {
      IndexOfFirst(text, MARKERS[k], i);
    }
    NearestNone(text, i, MARKERS);
  }

  /** Non-empty text without '*' or '`' is one text token, the text itself. */
  lemma PlainText(text: string)
    requires text != []
    requires forall j :: 0 <= j < |text| ==> Plain(text[j])
    ensures Tokens(text) == [Text(text)]
  {
    assert Slice(text, 0, 2) != "**" by {
      var sl := Slice(text, 0, 2);
      if |text| >= 2 {
        assert sl[0] == text[0];
      }
    }
    NoMarkers(text, 0);
    assert text[0..|text|] == text;
    assert Step(text, 0) == (Text(text), Some(|text|));
    LastToken(text, 0);
  }

  /** A run of characters other than '*'. */
  predicate NoStar(x: string)
  {
    forall j :: 0 <= j < |x| ==> x[j] != '*'
  }

  /** "**x**" is one bold token, even though it also begins with "*": bold
      is tried before italic. */
  lemma BoldToken(x: string)
    requires NoStar(x)
    ensures Tokens("**" + x + "**") == [Bold(x)]
  {
    var text := "**" + x + "**";
    assert text[0..2] == "**";
    assert text[|x| + 2..|x| + 4] == "**";
    forall j | 2 <= j < |x| + 2
      ensures !OccursAt(text, "**", j)
    {
      assert text[j] == x[j - 2];
      NotOccursAt(text, "**", j);
    }
    IndexOfAt(text, "**", 2, |x| + 2);
    assert text[2..|x| + 2] == x;
    assert Step(text, 0) == (Bold(x), Some(|text|));
    LastToken(text, 0);
  }

  /** "`x`" is one code token. */
  lemma CodeToken(x: string)
    requires forall j :: 0 <= j < |x| ==> x[j] != '`'
    ensures Tokens("`" + x + "`") == [Code(x)]
  {
    var text := "`" + x + "`";
    assert Slice(text, 0, 2) != "**" by {
      assert Slice(text, 0, 2)[0] == '`';
    }
    assert text[|x| + 1..|x| + 2] == "`";
    forall j | 1 <= j < |x| + 1
      ensures !OccursAt(text, "`", j)
    {
      assert text[j] == x[j - 1];
      NotOccursAt(text, "`", j);
    }
    IndexOfAt(text, "`", 1, |x| + 1);
    assert text[1..|x| + 1] == x;
    assert Step(text, 0) == (Code(x), Some(|text|));
    LastToken(text, 0);
  }

  /** "*x*", with a non-empty x free of '*', is one italic token. */
  lemma ItalicToken(x: string)
    requires x != [] && NoStar(x)
    ensures Tokens("*" + x + "*") == [Italic(x)]
  {
    var text := "*" + x + "*";
    assert text[1] == x[0];
    assert Slice(text, 0, 2) != "**" by {
      assert Slice(text, 0, 2)[1] == x[0];
    }
    assert text[|x| + 1..|x| + 2] == "*";
    forall j | 1 <= j < |x| + 1
      ensures !OccursAt(text, "*", j)
    {
      assert text[j] == x[j - 1];
      NotOccursAt(text, "*", j);
    }
    IndexOfAt(text, "*", 1, |x| + 1);
    assert text[|x|] == x[|x| - 1];
    assert text[1..|x| + 1] == x;
    assert Step(text, 0) == (Italic(x), Some(|text|));
    LastToken(text, 0);
  }

  /** A '*' or '`' at position i that has no partner after it makes the whole
      rest of the line one text token, even where later markers would
      match. */
  lemma UnmatchedMarker(text: string, i: nat)
    requires i < |text|
    requires (text[i] == '*' && IndexOf(text, "*", i + 1) == -1) || (text[i] == '`' && IndexOf(text, "`", i + 1) == -1)
    ensures TokensFrom(text, i) == [Text(text[i..])]
  {
    if text[i] == '*' {
      UnmatchedStar(text, i);
    } else {
      UnmatchedBacktick(text, i);
    }
  }

  lemma UnmatchedStar(text: string, i: nat)
    requires i < |text| && text[i] == '*' && IndexOf(text, "*", i + 1) == -1
    ensures TokensFrom(text, i) == [Text(text[i..])]
  {
    NoSecondStar(text, i);
    NotBoldAt(text, i);
    SingleAt(text, i, 1);
    NearestAt(text, i, MARKERS, 1);
    BreakStep(text, i);
  }

  lemma UnmatchedBacktick(text: string, i: nat)
    requires i < |text| && text[i] == '`' && IndexOf(text, "`", i + 1) == -1
    ensures TokensFrom(text, i) == [Text(text[i..])]
  {
    NotBoldAt(text, i);
    SingleAt(text, i, 2);
    NearestAt(text, i, MARKERS, 2);
    BreakStep(text, i);
  }

  /** When no span opens at i and a marker sits right there, the loop
      breaks with the rest of the line as text. */
  lemma BreakStep(text: string, i: nat)
    requires i < |text| && BoldClose(text, i).None? && CodeClose(text, i).None? && ItalicClose(text, i).None?
    requires NearestMarker(text, i, MARKERS) == i
    ensures TokensFrom(text, i) == [Text(text[i..])]
  {
    assert Step(text, i) == (Text(text[i..]), None);
    LastToken(text, i);
  }

  /** With no '*' after position i, the character after i is not one. */
  lemma NoSecondStar(text: string, i: nat)
    requires i < |text| && IndexOf(text, "*", i + 1) == -1
    ensures CharAt(text, i + 1) != Some('*')
  {
    IndexOfFirst(text, "*", i + 1);
  }

  /** Bold needs two '*' at i. */
  lemma NotBoldAt(text: string, i: nat)
    requires i < |text| && (text[i] != '*' || CharAt(text, i + 1) != Some('*'))
    ensures Slice(text, i, i + 2) != "**"
  {
    var sl := Slice(text, i, i + 2);
    if i + 1 < |text| {
      assert sl[0] == text[i] && sl[1] == text[i + 1];
    }
  }

  /** The one-character marker `MARKERS[k]` at i. */
  lemma SingleAt(text: string, i: nat, k: nat)
    requires 1 <= k < |MARKERS| && i < |text| && text[i] == MARKERS[k][0]
    ensures OccursAt(text, MARKERS[k], i)
  {
    assert text[i..i + 1] == [text[i]];
  }

  /** The italic branch's second test, that the closing '*' does not follow
      another '*', always holds once the first '*' is not doubled. */
  lemma ItalicCloseCheckHolds(text: string, i: nat)
    requires i < |text| && text[i] == '*' && CharAt(text, i + 1) != Some('*')
    requires IndexOf(text, "*", i + 1) != -1
    ensures CharAt(text, IndexOf(text, "*", i + 1) - 1) != Some('*')
  {
    var e := IndexOf(text, "*", i + 1);
    IndexOfFirst(text, "*", i + 1);
    if e > i + 1 {
      StarAt(text, e - 1);
    }
  }

  /** "*" occurs at j exactly where the text holds a '*'. */
  lemma StarAt(text: string, j: nat)
    requires j < |text|
    ensures OccursAt(text, "*", j) <==> text[j] == '*'
  {
    assert text[j..j + 1] == [text[j]];
  }

  // ---------------------------------------------------------------------
  // A marker that opens no span

  /** The marker test ends the loop as soon as a '*' or '`' that opens no
      span is reached, even though later markers would match: "` *x*" stays
      one text token. */
  lemma SwallowedSpan()
    ensures Tokens("` *x*") == [Text("` *x*")]
  {
    var text := "` *x*";
    forall j | 1 <= j <= |text|
      ensures !OccursAt(text, "`", j)
    {
      if j < |text| {
        NotOccursAt(text, "`", j);
      }
    }
    NoOccurrence(text, "`", 1);
    UnmatchedMarker(text, 0);
    assert text[0..] == text;
  }

  /** With no occurrence from `from` on, `IndexOf` gives -1. */
  lemma NoOccurrence(s: string, p: string, from: nat)
    requires p != []
    requires forall j :: from <= j <= |s| ==> !OccursAt(s, p, j)
    ensures IndexOf(s, p, from) == -1
  {
    IndexOfFirst(s, p, from);
  }

  /** One iteration of the tokenizer as evidently intended: a marker that
      opens no span is taken as text up to the next marker after it, and the
      loop goes on from there instead of breaking. */
  function ResumingStep(text: string, i: nat): (r: (Token, nat))
    requires i < |text|
    ensures i < r.1 <= |text| && Source(r.0) == text[i..r.1]
  {
    var (t, next) := Step(text, i);
    if next.Some? then (t, next.value)
    else
      var m := NearestMarker(text, i + 1, MARKERS);
      (Text(text[i..m]), m)
  }

  /** The tokens of the corrected loop from position `i` on. */
  function ResumingTokensFrom(text: string, i: nat): seq<Token>
    requires i <= |text|
    decreases |text| - i
  {
    if i == |text| then []
    else
      var r := ResumingStep(text, i);
      [r.0] + ResumingTokensFrom(text, r.1)
  }

  function ResumingTokens(text: string): seq<Token>
  {
    ResumingTokensFrom(text, 0)
  }

  /** The corrected loop still reads the line back exactly. */
  lemma {:induction false} ResumingTokensFromUnparse(text: string, i: nat)
    requires i <= |text|
    ensures Unparse(ResumingTokensFrom(text, i)) == text[i..]
    decreases |text| - i
  {
    if i < |text| {
      var r := ResumingStep(text, i);
      ResumingTokensFromUnparse(text, r.1);
      UnparseCons(r.0, ResumingTokensFrom(text, r.1));
      SplitSlice(text, i, r.1);
    }
  }

  /** Where a '*' or '`' opens no span, the corrected loop takes it as text
      up to the next marker and tokenizes the rest of the line from there. */
  lemma ResumesAfterUnmatched(text: string, i: nat)
    requires i < |text|
    requires (text[i] == '*' && IndexOf(text, "*", i + 1) == -1) || (text[i] == '`' && IndexOf(text, "`", i + 1) == -1)
    ensures var m := NearestMarker(text, i + 1, MARKERS);
      ResumingTokensFrom(text, i) == [Text(text[i..m])] + ResumingTokensFrom(text, m)
  {
    if text[i] == '*' {
      NoSecondStar(text, i);
      NotBoldAt(text, i);
      SingleAt(text, i, 1);
      NearestAt(text, i, MARKERS, 1);
    } else {
      NotBoldAt(text, i);
      SingleAt(text, i, 2);
      NearestAt(text, i, MARKERS, 2);
    }
    assert Step(text, i) == (Text(text[i..]), None);
  }

  /** The corrected loop finds the italic span after the unmatched '`'. */
  lemma ResumedSpan()
    ensures ResumingTokens("` *x*") == [Text("` "), Italic("x")]
  {
    var text := "` *x*";
    NoSecondBacktick(text);
    ResumesAfterUnmatched(text, 0);
    NearestAfterSpace(text);
    ItalicAtTwo(text);
    assert text[0..2] == "` ";
  }

  /** "` *x*" has no '`' after its first character. */
  lemma NoSecondBacktick(text: string)
    requires text == "` *x*"
    ensures text[0] == '`' && IndexOf(text, "`", 1) == -1
  {
    forall j | 1 <= j <= |text|
      ensures !OccursAt(text, "`", j)
    {
      if j < |text| {
        NotOccursAt(text, "`", j);
      }
    }
    NoOccurrence(text, "`", 1);
  }

  /** In "` *x*" the nearest marker after the '`' is the '*' at 2. */
  lemma NearestAfterSpace(text: string)
    requires text == "` *x*"
    ensures NearestMarker(text, 1, MARKERS) == 2
  {
    forall j | 1 <= j <= |text|
      ensures !OccursAt(text, "**", j)
    {
      if j == 1 {
        NotOccursAt(text, "**", 1);
      } else if j == 2 {
        assert text[2..4][1] == 'x';
      } else if j == 3 {
        assert text[3..5][0] == 'x';
      }
    }
    NoOccurrence(text, "**", 1);
    SingleAt(text, 2, 1);
    NotOccursAt(text, "*", 1);
    IndexOfAt(text, "*", 1, 2);
    NoSecondBacktick(text);
    assert MARKERS[..2] == ["**", "*"] && MARKERS[..2][..1] == ["**"] && MARKERS[..2][..1][..0] == [];
    assert NearestMarker(text, 1, ["**"]) == |text|;
    assert NearestMarker(text, 1, ["**", "*"]) == 2;
  }

  /** From position 2 of "` *x*" the corrected loop reads one italic span. */
  lemma ItalicAtTwo(text: string)
    requires text == "` *x*"
    ensures ResumingTokensFrom(text, 2) == [Italic("x")]
  {
    NotBoldAt(text, 2);
    NotOccursAt(text, "*", 3);
    IndexOfAt(text, "*", 3, 4);
    assert text[3..4] == "x";
    assert Step(text, 2) == (Italic("x"), Some(5));
  }

  // ---------------------------------------------------------------------
  // Lines

  /** `s.split('\n')` from position `from` on. */
  function SplitFrom(s: string, from: nat): (r: seq<string>)
    requires from <= |s|
    ensures r != []
    ensures forall k, j :: 0 <= k < |r| && 0 <= j < |r[k]| ==> r[k][j] != '\n'
    decreases |s| - from
  {
    var k := IndexOfChar(s, '\n', from);
    if k == -1 then [s[from..]] else [s[from..k]] + SplitFrom(s, k + 1)
  }

  function Lines(content: string): seq<string>
  {
    SplitFrom(content, 0)
  }

  /** Joining the lines with "\n" gives the content back. */
  lemma {:induction false} SplitFromJoin(s: string, from: nat)
    requires from <= |s|
    ensures Join(SplitFrom(s, from), "\n") == s[from..]
    decreases |s| - from
  {
    var k := IndexOfChar(s, '\n', from);
    if k != -1 {
      var rest := SplitFrom(s, k + 1);
      SplitFromJoin(s, k + 1);
      assert ([s[from..k]] + rest)[1..] == rest;
      assert s[from..] == s[from..k] + "\n" + s[k + 1..];
    }
  }

  lemma LinesJoin(content: string)
    ensures Join(Lines(content), "\n") == content
  {
    SplitFromJoin(content, 0);
  }

  /** What one line (or one fenced run of lines) becomes in the rendered
      output. A bullet, a numbered item and a paragraph carry the text they
      hand to the inline tokenizer; their styled spans are `Tokens(text)`. */
  datatype Block =
    | CodeBlock(lines: seq<string>)
    | Heading(text: string)
    | Bullet(text: string)
    | Numbered(number: string, text: string)
    | Blank
    | Paragraph(text: string)

  const FENCE := "```"

  /** The line terminators, which `.` in a regular expression does not match. */
  predicate IsLineTerminator(c: char)
  {
    c == '\n' || c == '\r' || c == '\U{2028}' || c == '\U{2029}'
  }

  predicate NoLineTerminator(s: string)
  {
    forall j :: 0 <= j < |s| ==> !IsLineTerminator(s[j])
  }

  /** How many '#' start `s`. */
  function LeadingHashes(s: string): (r: nat)
    ensures r <= |s|
    ensures forall j :: 0 <= j < r ==> s[j] == '#'
    ensures r == |s| || s[r] != '#'
  {
    if s != [] && s[0] == '#' then 1 + LeadingHashes(s[1..]) else 0
  }

  predicate IsDigit(c: char)
  {
    '0' <= c <= '9'
  }

  /** How many decimal digits start `s` (`\d` matches these only). */
  function LeadingDigits(s: string): (r: nat)
    ensures r <= |s|
    ensures forall j :: 0 <= j < r ==> IsDigit(s[j])
    ensures r == |s| || !IsDigit(s[r])
  {
    if s != [] && IsDigit(s[0]) then 1 + LeadingDigits(s[1..]) else 0
  }

  /** The group `(.+)` of `\s+(.+)$` matched at the start of `s`. The
      greedy `\s+` takes all leading white space when text follows it, and
      gives back its last character when nothing does; `.` must cover the
      rest of the line without meeting a line terminator. */
  function SpacesThenRest(s: string): (r: Option<string>)
    ensures r.Some? ==> s != [] && IsSpace(s[0]) && r.value != [] && NoLineTerminator(r.value)
    ensures r.Some? ==> |r.value| < |s| && r.value == s[|s| - |r.value|..]
  {
    var rest := TrimStart(s);
    var w := |s| - |rest|;
    if w == 0 then None
    else if rest != [] then (if NoLineTerminator(rest) then Some(rest) else None)
    else if w >= 2 && !IsLineTerminator(s[w - 1]) then Some([s[w - 1]])
    else None
  }

  /** `line.match(/^(#{1,3})\s+(.+)$/)`, group 2. */
  function HeadingMatch(line: string): Option<string>
  {
    var h := LeadingHashes(line);
    if 1 <= h <= 3 then SpacesThenRest(line[h..]) else None
  }

  /** `line.match(/^[-*]\s+/)`, and the line with that match replaced by ''. */
  function BulletMatch(line: string): Option<string>
  {
    if |line| >= 2 && (line[0] == '-' || line[0] == '*') && IsSpace(line[1]) then Some(TrimStart(line[1..])) else None
  }

  /** `line.match(/^\d+\.\s+/)` */
  predicate NumberedPrefix(line: string)
  {
    var d := LeadingDigits(line);
    d >= 1 && d + 1 < |line| && line[d] == '.' && IsSpace(line[d + 1])
  }

  /** `line.match(/^(\d+)\.\s+(.+)$/)`, groups 1 and 2. */
  function NumberedMatch(line: string): Option<(string, string)>
  {
    var d := LeadingDigits(line);
    if d >= 1 && d < |line| && line[d] == '.' then
      match SpacesThenRest(line[d + 1..])
      case None => None
      case Some(t) => Some((line[..d], t))
    else None
  }

  /** The block one line outside a code block becomes: the tests of the line
      loop in order. */
  function LineBlock(line: string): Block
  {
    match HeadingMatch(line)
    case Some(t) => Heading(t)
    case None =>
      match BulletMatch(line)
      case Some(t) => Bullet(t)
      case None =>
        if NumberedPrefix(line) && NumberedMatch(line).Some? then
          Numbered(NumberedMatch(line).value.0, NumberedMatch(line).value.1)
        else if Trim(line) == "" then Blank
        else Paragraph(line)
  }

  /** The blocks the line loop emits from line `i` on, given whether it is
      inside a code block and the code lines buffered so far. */
  function BlocksFrom(lines: seq<string>, i: nat, inCode: bool, buffer: seq<string>): seq<Block>
    requires i <= |lines|
    decreases |lines| - i
  {
    if i == |lines| then []
    else if StartsWith(lines[i], FENCE) then
      if inCode then [CodeBlock(buffer)] + BlocksFrom(lines, i + 1, false, [])
      else BlocksFrom(lines, i + 1, true, buffer)
    else if inCode then BlocksFrom(lines, i + 1, true, buffer + [lines[i]])
    else [LineBlock(lines[i])] + BlocksFrom(lines, i + 1, false, buffer)
  }

  function Blocks(content: string): seq<Block>
  {
    BlocksFrom(Lines(content), 0, false, [])
  }

  /** The `Markdown` component's line loop. */
  method Render(content: string) returns (elements: seq<Block>)
    ensures elements == Blocks(content)
  {
    var lines := Lines(content);
    elements := [];
    var inCodeBlock := false;
    var codeBlockContent: seq<string> := [];
    for i := 0 to |lines|
      invariant elements + BlocksFrom(lines, i, inCodeBlock, codeBlockContent) == Blocks(content)
    {
      var line := lines[i];
      if StartsWith(line, FENCE) {
        FenceLine(lines, i, inCodeBlock, codeBlockContent);
        if inCodeBlock {
          Shift(elements, [CodeBlock(codeBlockContent)], BlocksFrom(lines, i + 1, false, []));
          elements := elements + [CodeBlock(codeBlockContent)];
          codeBlockContent := [];
          inCodeBlock := false;
        } else {
          inCodeBlock := true;
        }
        continue;
      }
      if inCodeBlock {
        CodeLine(lines, i, codeBlockContent);
        codeBlockContent := codeBlockContent + [line];
        continue;
      }
      OutsideLine(lines, i, codeBlockContent);
      var block := RenderLine(line);
      Shift(elements, [block], BlocksFrom(lines, i + 1, false, codeBlockContent));
      elements := elements + [block];
    }
  }

  lemma Shift<T>(done: seq<T>, x: seq<T>, rest: seq<T>)
    ensures done + (x + rest) == (done + x) + rest
  {
  }

  /** A fence closes an open code block, emitting it, or opens one. */
  lemma FenceLine(lines: seq<string>, i: nat, inCode: bool, buffer: seq<string>)
    requires i < |lines| && StartsWith(lines[i], FENCE)
    ensures inCode ==> BlocksFrom(lines, i, inCode, buffer) == [CodeBlock(buffer)] + BlocksFrom(lines, i + 1, false, [])
    ensures !inCode ==> BlocksFrom(lines, i, inCode, buffer) == BlocksFrom(lines, i + 1, true, buffer)
  {
  }

  /** Inside a code block, a line that is not a fence is buffered. */
  lemma CodeLine(lines: seq<string>, i: nat, buffer: seq<string>)
    requires i < |lines| && !StartsWith(lines[i], FENCE)
    ensures BlocksFrom(lines, i, true, buffer) == BlocksFrom(lines, i + 1, true, buffer + [lines[i]])
  {
  }

  /** Outside a code block, a line that is not a fence gives its own block. */
  lemma OutsideLine(lines: seq<string>, i: nat, buffer: seq<string>)
    requires i < |lines| && !StartsWith(lines[i], FENCE)
    ensures BlocksFrom(lines, i, false, buffer) == [LineBlock(lines[i])] + BlocksFrom(lines, i + 1, false, buffer)
  {
  }

  /** The tests one line outside a code block goes through. */
  method RenderLine(line: string) returns (block: Block)
    ensures block == LineBlock(line)
  {
    var headingMatch := HeadingMatch(line);
    if headingMatch.Some? {
      return Heading(headingMatch.value);
    }
    var bullet := BulletMatch(line);
    if bullet.Some? {
      return Bullet(bullet.value);
    }
    if NumberedPrefix(line) {
      var match_ := NumberedMatch(line);
      if match_.Some? {
        return Numbered(match_.value.0, match_.value.1);
      }
    }
    if Trim(line) == "" {
      return Blank;
    }
    block := Paragraph(line);
  }

  predicate NoFence(lines: seq<string>, from: nat, to: nat)
    requires from <= to <= |lines|
  {
    forall j :: from <= j < to ==> !StartsWith(lines[j], FENCE)
  }

  /** Inside a code block, the lines up to the closing fence are emitted as
      one code block, and the loop carries on outside. */
  lemma {:induction false} ClosedFence(lines: seq<string>, i: nat, k: nat, buffer: seq<string>)
    requires i <= k < |lines| && StartsWith(lines[k], FENCE) && NoFence(lines, i, k)
    ensures BlocksFrom(lines, i, true, buffer) == [CodeBlock(buffer + lines[i..k])] + BlocksFrom(lines, k + 1, false, [])
    decreases k - i
  {
    if i == k {
      assert buffer + lines[i..k] == buffer;
    } else {
      ClosedFence(lines, i + 1, k, buffer + [lines[i]]);
      assert buffer + [lines[i]] + lines[i + 1..k] == buffer + lines[i..k];
    }
  }

  /** A code block that is never closed emits none of its lines. */
  lemma {:induction false} UnclosedFence(lines: seq<string>, i: nat, buffer: seq<string>)
    requires i <= |lines| && NoFence(lines, i, |lines|)
    ensures BlocksFrom(lines, i, true, buffer) == []
    decreases |lines| - i
  {
    if i < |lines| {
      UnclosedFence(lines, i + 1, buffer + [lines[i]]);
    }
  }

  /** Each line's own block, line by line. */
  function LineBlocks(ls: seq<string>): (r: seq<Block>)
    ensures |r| == |ls|
    ensures forall k :: 0 <= k < |ls| ==> r[k] == LineBlock(ls[k])
  {
    if ls == [] then [] else [LineBlock(ls[0])] + LineBlocks(ls[1..])
  }

  /** Outside code blocks, each line gives exactly its own block. */
  lemma {:induction false} NoFences(lines: seq<string>, i: nat)
    requires i <= |lines| && NoFence(lines, i, |lines|)
    ensures BlocksFrom(lines, i, false, []) == LineBlocks(lines[i..])
    decreases |lines| - i
  {
    if i < |lines| {
      NoFences(lines, i + 1);
      OutsideLine(lines, i, []);
      assert lines[i..][1..] == lines[i + 1..];
    }
  }

  /** "# " to "### " followed by text is a heading of that text. */
  lemma HeadingLine(hashes: string, t: string)
    requires 1 <= |hashes| <= 3 && forall j :: 0 <= j < |hashes| ==> hashes[j] == '#'
    requires t != [] && !IsSpace(t[0]) && NoLineTerminator(t)
    ensures LineBlock(hashes + " " + t) == Heading(t)
  {
    var line := hashes + " " + t;
    assert line == hashes + (" " + t);
    LeadingPrefix(hashes, " " + t);
    assert line[|hashes|..] == " " + t;
    OneSpaceThenText(t);
    assert HeadingMatch(line) == Some(t);
  }

  lemma OneSpaceThenText(t: string)
    requires t != [] && !IsSpace(t[0]) && NoLineTerminator(t)
    ensures SpacesThenRest(" " + t) == Some(t)
  {
    assert (" " + t)[1..] == t;
    assert TrimStart(" " + t) == t;
  }

  lemma {:induction false} LeadingPrefix(hashes: string, rest: string)
    requires forall j :: 0 <= j < |hashes| ==> hashes[j] == '#'
    requires rest != [] && rest[0] != '#'
    ensures LeadingHashes(hashes + rest) == |hashes|
    decreases |hashes|
  {
    if hashes != [] {
      assert (hashes + rest)[1..] == hashes[1..] + rest;
      LeadingPrefix(hashes[1..], rest);
    } else {
      assert hashes + rest == rest;
    }
  }

  /** "- " or "* " followed by text is a bullet of that text. */
  lemma BulletLine(marker: char, t: string)
    requires marker == '-' || marker == '*'
    requires t != [] && !IsSpace(t[0])
    ensures LineBlock([marker, ' '] + t) == Bullet(t)
  {
    var line := [marker, ' '] + t;
    assert LeadingHashes(line) == 0;
    assert line[1..] == [' '] + t;
    assert ([' '] + t)[1..] == t;
    assert TrimStart(line[1..]) == t;
  }

  /** A line is emitted as a blank line exactly when it is white space
      only. */
  lemma BlankLine(line: string)
    ensures LineBlock(line) == Blank <==> forall j :: 0 <= j < |line| ==> IsSpace(line[j])
  {
    if forall j :: 0 <= j < |line| ==> IsSpace(line[j]) {
      SpaceIsBlank(line);
    }
    if LineBlock(line) == Blank {
      TrimEmptyIff(line);
    }
  }

  lemma SpaceIsBlank(line: string)
    requires forall j :: 0 <= j < |line| ==> IsSpace(line[j])
    ensures LineBlock(line) == Blank
  {
    TrimEmptyIff(line);
    if line != [] {
      assert IsSpace(line[0]);
    }
    assert LeadingHashes(line) == 0 && LeadingDigits(line) == 0;
    assert HeadingMatch(line).None? && BulletMatch(line).None? && !NumberedPrefix(line);
  }
}
