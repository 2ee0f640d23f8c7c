/** Finding formulas in text and rendering them, without losing any of the text. */
module LatexRender {
  import opened Prelude
  import opened LatexEscape

  // ---------------------------------------------------------------- the two patterns

  predicate Two(s: string, i: nat) {
    i + 1 < |s| && s[i] == '$' && s[i + 1] == '$'
  }

  /** `\$\$([\s\S]*?)\$\$` can match from `i` up to `j`. */
  predicate DisplayAt(s: string, i: nat, j: nat) {
    Two(s, i) && i + 4 <= j <= |s| && Two(s, j - 2)
  }

  /** `\$([^\$\n]+?)\$` can match from `i` up to `j`. */
  predicate InlineAt(s: string, i: nat, j: nat) {
    && i + 3 <= j <= |s| && s[i] == '$' && s[j - 1] == '$'
    && forall k :: i < k < j - 1 ==> s[k] != '$' && s[k] != '\n'
  }

  type Pattern = (string, nat, nat) -> bool

  /** What a regular expression engine returns: the leftmost match, and of those the lazy one. */
  ghost predicate FirstMatch(p: Pattern, s: string, i: nat, j: nat) {
    && p(s, i, j)
    && (forall i': nat, j': nat :: i' < i ==> !p(s, i', j'))
    && (forall j': nat :: j' < j ==> !p(s, i, j'))
  }

  ghost predicate NoMatch(p: Pattern, s: string) {
    forall i, j: nat :: !p(s, i, j)
  }

  datatype Span = Span(start: nat, end: nat)

  /** The end of the next `$$` at or after `k`. */
  function CloseDisplay(s: string, k: nat): (r: Option<nat>)
    decreases |s| - k
    ensures r.Some? ==>
              && k + 2 <= r.value <= |s| && Two(s, r.value - 2)
              && forall x :: k <= x < r.value - 2 ==> !Two(s, x)
    ensures r.None? ==> forall x :: k <= x ==> !Two(s, x)
  {
    if k + 1 >= |s| then None else if Two(s, k) then Some(k + 2) else CloseDisplay(s, k + 1)
  }

  function DisplayFrom(s: string, i: nat): (r: Option<Span>)
    decreases |s| - i
    ensures r.Some? ==> i <= r.value.start && DisplayAt(s, r.value.start, r.value.end)
    ensures r.Some? ==> forall x, y: nat :: i <= x < r.value.start ==> !DisplayAt(s, x, y)
    ensures r.Some? ==> forall y: nat :: y < r.value.end ==> !DisplayAt(s, r.value.start, y)
    ensures r.None? ==> forall x, y: nat :: i <= x ==> !DisplayAt(s, x, y)
  {
    if i >= |s| then None
    else if Two(s, i) && CloseDisplay(s, i + 2).Some? then Some(Span(i, CloseDisplay(s, i + 2).value))
    else DisplayFrom(s, i + 1)
  }

  /** The end of an inline formula whose content reaches at least `k`. */
  function CloseInline(s: string, k: nat): (r: Option<nat>)
    decreases |s| - k
    ensures r.Some? ==>
              && k < r.value <= |s| && s[r.value - 1] == '$'
              && forall x :: k <= x < r.value - 1 ==> s[x] != '$' && s[x] != '\n'
    ensures r.None? ==> forall z :: k <= z < |s| && s[z] == '$' ==>
            exists x :: k <= x < z && (s[x] == '$' || s[x] == '\n')
  {
    if k >= |s| || s[k] == '\n' then None else if s[k] == '$' then Some(k + 1) else CloseInline(s, k + 1)
  }

  predicate Opens(s: string, i: nat) {
    i + 1 < |s| && s[i] == '$' && s[i + 1] != '$' && s[i + 1] != '\n'
  }

  function InlineFrom(s: string, i: nat): (r: Option<Span>)
    decreases |s| - i
    ensures r.Some? ==> i <= r.value.start && InlineAt(s, r.value.start, r.value.end)
    ensures r.Some? ==> forall x, y: nat :: i <= x < r.value.start ==> !InlineAt(s, x, y)
    ensures r.Some? ==> forall y: nat :: y < r.value.end ==> !InlineAt(s, r.value.start, y)
    ensures r.None? ==> forall x, y: nat :: i <= x ==> !InlineAt(s, x, y)
  {
    if i >= |s| then None
    else if Opens(s, i) && CloseInline(s, i + 2).Some? then Some(Span(i, CloseInline(s, i + 2).value))
    else
      NoInlineHere(s, i);
      InlineFrom(s, i + 1)
  }

  lemma NoInlineHere(s: string, i: nat)
    requires !Opens(s, i) || CloseInline(s, i + 2).None?
    ensures forall y: nat :: !InlineAt(s, i, y)
  {
    forall y: nat ensures !InlineAt(s, i, y) {
      if InlineAt(s, i, y) {
        assert s[i + 1] != '$' && s[i + 1] != '\n';
        assert Opens(s, i);
        var x :| i + 2 <= x < y - 1 && (s[x] == '$' || s[x] == '\n');
        assert false;
      }
    }
  }

  lemma EnginesReturnFirst(s: string)
    ensures match DisplayFrom(s, 0)
            case Some(r) => FirstMatch(DisplayAt, s, r.start, r.end)
            case None => NoMatch(DisplayAt, s)
    ensures match InlineFrom(s, 0)
            case Some(r) => FirstMatch(InlineAt, s, r.start, r.end)
            case None => NoMatch(InlineAt, s)
  {
  }

  // ---------------------------------------------------------------- indexOf

  /** `s.indexOf(sub)`: the first occurrence, or the length of `s` when there is none. */
  function IndexFrom(s: string, sub: string, k: nat): (r: nat)
    requires k <= |s|
    decreases |s| - k
    ensures k <= r <= |s| && (forall x :: k <= x < r ==> !StartsWith(s[x..], sub))
            && (r < |s| ==> StartsWith(s[r..], sub))
  {
    if k == |s| || StartsWith(s[k..], sub) then k else IndexFrom(s, sub, k + 1)
  }

  /** A pattern that looks only at the text it covers. */
  lemma CopiesMatch(s: string, i: nat, j: nat, k: nat)
    requires i <= j <= |s| && k < |s| && StartsWith(s[k..], s[i..j])
    ensures DisplayAt(s, i, j) ==> DisplayAt(s, k, k + (j - i))
    ensures InlineAt(s, i, j) ==> InlineAt(s, k, k + (j - i))
  {
    assert forall x :: 0 <= x < j - i ==> s[k + x] == s[i..j][x] == s[i + x];
    assert forall x :: k < x < k + (j - i) - 1 ==> s[x] == s[i + (x - k)];
  }

  /** The first occurrence of what a pattern matched is where it matched. */
  lemma IndexOfMatchIsItsPosition(s: string, i: nat, j: nat)
    requires FirstMatch(DisplayAt, s, i, j) || FirstMatch(InlineAt, s, i, j)
    ensures i <= j <= |s| && IndexFrom(s, s[i..j], 0) == i
  {
    var r := IndexFrom(s, s[i..j], 0);
    assert s[i..][..j - i] == s[i..j];
    assert r <= i;
    if r < i {
      CopiesMatch(s, i, j, r);
    }
  }

  // ---------------------------------------------------------------- which inline matches are formulas

  predicate IsDigit(c: char) { '0' <= c <= '9' }

  predicate Digits(s: string) {
    s != "" && forall k :: 0 <= k < |s| ==> IsDigit(s[k])
  }

  /** An integer, an amount with two decimals, or a number that begins with grouped thousands. */
  predicate LooksLikeMoney(s: string) {
    || Digits(s)
    || (|s| > 3 && Digits(s[..|s| - 3]) && (s[|s| - 3] == '.' || s[|s| - 3] == ',') && Digits(s[|s| - 2..]))
    || (exists k :: 1 <= k <= 3 && k + 4 <= |s| && Digits(s[..k]) && s[k] == ',' && Digits(s[k + 1..k + 4]))
  }

  function TrimLeft(s: string): string {
    if s != "" && ScriptSpace(s[0]) then TrimLeft(s[1..]) else s
  }

  function TrimRight(s: string): string {
    if s != "" && ScriptSpace(s[|s| - 1]) then TrimRight(s[..|s| - 1]) else s
  }

  function Trim(s: string): string {
    TrimRight(TrimLeft(s))
  }

  predicate IsValidInlineDelimiter(s: string, i: nat, j: nat)
    requires i + 3 <= j <= |s|
  {
    && !LooksLikeMoney(Trim(s[i + 1..j - 1]))
    && (i > 0 ==> ScriptSpace(s[i - 1]) || s[i - 1] in "({[,;:!?")
    && (j < |s| ==> ScriptSpace(s[j]) || s[j] in ")}].,;:!?")
  }

  // ---------------------------------------------------------------- segments

  datatype Segment = Text(raw: string) | Formula(raw: string, display: bool)

  datatype Choice = Nothing | Skip(at: nat) | Render(start: nat, end: nat, display: bool)

  /** What one round of the loop decides: the earlier of the two matches, display first. */
  function Choose(s: string): (c: Choice)
    ensures c.Skip? ==> c.at < |s|
    ensures c.Render? ==> c.start + 3 <= c.end <= |s|
  {
    var d, i := DisplayFrom(s, 0), InlineFrom(s, 0);
    if d.Some? && (i.None? || d.value.start <= i.value.start) then Render(d.value.start, d.value.end, true)
    else if i.None? then Nothing
    else if IsValidInlineDelimiter(s, i.value.start, i.value.end) then Render(i.value.start, i.value.end, false)
    else Skip(i.value.start)
  }

  /** The segments one round of the loop shows, and the text it leaves. */
  function RoundOf(s: string): (r: (seq<Segment>, string))
    requires s != ""
    ensures |r.1| < |s|
  {
    match Choose(s)
    case Nothing => ([Text(s)], "")
    case Skip(at) => ([Text(s[..at + 1])], s[at + 1..])
    case Render(i, j, display) => ((if i > 0 then [Text(s[..i])] else []) + [Formula(s[i..j], display)], s[j..])
  }

  function Segments(s: string): seq<Segment>
    decreases |s|
  {
    if s == "" then [] else RoundOf(s).0 + Segments(RoundOf(s).1)
  }

  function Raws(segs: seq<Segment>): string {
    if segs == [] then "" else segs[0].raw + Raws(segs[1..])
  }

  lemma {:induction false} RawsJoin(a: seq<Segment>, b: seq<Segment>)
    ensures Raws(a + b) == Raws(a) + Raws(b)
  {
    if a == [] {
      assert a + b == b;
    } else {
      assert (a + b)[1..] == a[1..] + b;
      RawsJoin(a[1..], b);
    }
  }

  lemma RawsOfOne(g: Segment)
    ensures Raws([g]) == g.raw
  {
    assert [g][1..] == [];
  }

  lemma RoundIsPrefix(s: string)
    requires s != ""
    ensures Raws(RoundOf(s).0) + RoundOf(s).1 == s
  {
    hide Choose, Raws;
    match Choose(s)
    case Nothing => RawsOfOne(Text(s));
    case Skip(at) => RawsOfOne(Text(s[..at + 1]));
    case Render(i, j, display) =>
      RawsOfOne(Formula(s[i..j], display));
      if i > 0 {
        RawsOfOne(Text(s[..i]));
        RawsJoin([Text(s[..i])], [Formula(s[i..j], display)]);
      } else {
        assert [] + [Formula(s[i..j], display)] == [Formula(s[i..j], display)];
      }
  }

  /** The slices put together are the text. */
  lemma {:induction false} SegmentsLoseNothing(s: string)
    ensures Raws(Segments(s)) == s
    decreases |s|
  {
    hide RoundOf;
    if s != "" {
      SegmentsLoseNothing(RoundOf(s).1);
      RoundIsPrefix(s);
      RawsJoin(RoundOf(s).0, Segments(RoundOf(s).1));
    }
  }

  /** A formula is a whole match of its pattern. */
  predicate WellDelimited(f: Segment) {
    f.Formula? ==> if f.display then DisplayAt(f.raw, 0, |f.raw|) else InlineAt(f.raw, 0, |f.raw|)
  }

  lemma RoundIsWellDelimited(s: string, g: Segment)
    requires s != "" && g in RoundOf(s).0
    ensures WellDelimited(g)
  {
    hide Choose, WellDelimited;
    TextIsWellDelimited();
    if Choose(s).Render? {
      ChosenIsMatch(s);
    }
  }

  lemma {:induction false} FormulasAreMatches(s: string, k: nat)
    requires k < |Segments(s)|
    ensures WellDelimited(Segments(s)[k])
    decreases |s|
  {
    hide RoundOf, WellDelimited;
    var round, rest := RoundOf(s).0, RoundOf(s).1;
    if k < |round| {
      RoundIsWellDelimited(s, round[k]);
    } else {
      FormulasAreMatches(rest, k - |round|);
    }
  }

  lemma TextIsWellDelimited()
    ensures forall raw :: WellDelimited(Text(raw))
  {
  }

  lemma ChosenIsMatch(s: string)
    requires Choose(s).Render?
    ensures var c := Choose(s); WellDelimited(Formula(s[c.start..c.end], c.display))
  {
    hide IsValidInlineDelimiter;
    MatchCutsOut(s, Choose(s).start, Choose(s).end);
  }

  lemma MatchCutsOut(s: string, i: nat, j: nat)
    requires i <= j <= |s|
    ensures DisplayAt(s, i, j) ==> DisplayAt(s[i..j], 0, j - i)
    ensures InlineAt(s, i, j) ==> InlineAt(s[i..j], 0, j - i)
  {
    assert forall x :: 0 <= x < j - i ==> s[i..j][x] == s[i + x];
  }

  // ---------------------------------------------------------------- rendering

  /** The formula renderer: nothing when it throws. */
  type Katex = (string, bool) -> Option<string>

  function Wrapped(html: string, display: bool): string {
    "<span class=\"katex-wrapper" + (if display then " katex-display" else "") + "\">" + html + "</span>"
  }

  function Content(f: Segment): string
    requires f.Formula?
  {
    var n := if f.display then 2 else 1;
    if |f.raw| < 2 * n then "" else Trim(f.raw[n..|f.raw| - n])
  }

  function Shown(g: Segment, katex: Katex): string {
    if g.Text? then EscapeHtml(g.raw)
    else match katex(Content(g), g.display)
      case Some(html) => Wrapped(html, g.display)
      case None => EscapeHtml(g.raw)
  }

  function Html(segs: seq<Segment>, katex: Katex): string {
    if segs == [] then "" else Shown(segs[0], katex) + Html(segs[1..], katex)
  }

  function TextBefore(s: string, i: nat): string
    requires i <= |s|
  {
    if i > 0 then EscapeHtml(s[..i]) else ""
  }

  /** What one round of the loop contributes to the page. */
  lemma HtmlOfRound(s: string, katex: Katex)
    requires s != ""
    ensures Choose(s).Nothing? ==> Html(Segments(s), katex) == EscapeHtml(s)
    ensures Choose(s).Skip? ==>
              var at := Choose(s).at;
              Html(Segments(s), katex) == EscapeHtml(s[..at + 1]) + Html(Segments(s[at + 1..]), katex)
    ensures Choose(s).Render? ==>
              var start, end := Choose(s).start, Choose(s).end;
              Html(Segments(s), katex)
              == TextBefore(s, start) + Shown(Formula(s[start..end], Choose(s).display), katex)
                 + Html(Segments(s[end..]), katex)
  {
    hide RoundOf, EscapeHtml, Shown, Html;
    HtmlJoin(RoundOf(s).0, Segments(RoundOf(s).1), katex);
    RoundShown(s, katex);
    assert Html(Segments(""), katex) == "" by { EmptyHtml(katex); }
  }

  lemma {:induction false} HtmlJoin(a: seq<Segment>, b: seq<Segment>, katex: Katex)
    ensures Html(a + b, katex) == Html(a, katex) + Html(b, katex)
  {
    hide Shown;
    if a == [] {
      assert a + b == b;
    } else {
      assert (a + b)[1..] == a[1..] + b;
      HtmlJoin(a[1..], b, katex);
    }
  }

  lemma HtmlOfOne(g: Segment, katex: Katex)
    ensures Html([g], katex) == Shown(g, katex) && (g.Text? ==> Shown(g, katex) == EscapeHtml(g.raw))
  {
    hide EscapeHtml;
    assert [g][1..] == [];
  }

  lemma RoundShown(s: string, katex: Katex)
    requires s != ""
    ensures var html, rest := Html(RoundOf(s).0, katex), RoundOf(s).1;
            && (Choose(s).Nothing? ==> html == EscapeHtml(s) && rest == "")
            && (Choose(s).Skip? ==> html == EscapeHtml(s[..Choose(s).at + 1]) && rest == s[Choose(s).at + 1..])
            && (Choose(s).Render? ==>
                  var start, end := Choose(s).start, Choose(s).end;
                  html == TextBefore(s, start) + Shown(Formula(s[start..end], Choose(s).display), katex)
                  && rest == s[end..])
  {
    hide Choose, Html, EscapeHtml, Shown;
    match Choose(s)
    case Nothing => HtmlOfOne(Text(s), katex);
    case Skip(at) => HtmlOfOne(Text(s[..at + 1]), katex);
    case Render(i, j, display) =>
      var formula := Formula(s[i..j], display);
      HtmlOfOne(formula, katex);
      if i > 0 {
        HtmlOfOne(Text(s[..i]), katex);
        HtmlJoin([Text(s[..i])], [formula], katex);
      } else {
        assert [] + [formula] == [formula];
      }
  }

  method RenderLatex(text: string, katex: Katex) returns (html: string)
    ensures html == Html(Segments(text), katex)
  {
    hide EscapeHtml, IsValidInlineDelimiter, Shown, Choose, Segments, Html;
    html := "";
    var remaining := text;
    while remaining != ""
      invariant Html(Segments(text), katex) == html + Html(Segments(remaining), katex)
      decreases |remaining|
    {
      var s := remaining;
      HtmlOfRound(s, katex);
      var chosen, start, end, display := FindFormula(s);
      if !chosen {
        html := html + EscapeHtml(s);
        return;
      }
      if !display && !IsValidInlineDelimiter(s, start, end) {
        html := html + EscapeHtml(s[..start + 1]);
        remaining := s[start + 1..];
        continue;
      }
      if start > 0 {
        html := html + EscapeHtml(s[..start]);
      }
      html := html + Shown(Formula(s[start..end], display), katex);
      remaining := s[end..];
    }
    EmptyHtml(katex);
  }

  lemma EmptyHtml(katex: Katex)
    ensures Html(Segments(""), katex) == ""
  {
  }

  /** The two matches of one round and the place `indexOf` finds them at. */
  method FindFormula(s: string) returns (found: bool, start: nat, end: nat, display: bool)
    requires s != ""
    ensures found ==> start + 3 <= end <= |s|
    ensures Choose(s) == if !found then Nothing
                         else if display || IsValidInlineDelimiter(s, start, end) then Render(start, end, display)
                         else Skip(start)
  {
    hide IsValidInlineDelimiter, FirstMatch;
    var d, i := DisplayFrom(s, 0), InlineFrom(s, 0);
    EnginesReturnFirst(s);
    if d.Some? {
      IndexOfMatchIsItsPosition(s, d.value.start, d.value.end);
    }
    if i.Some? {
      IndexOfMatchIsItsPosition(s, i.value.start, i.value.end);
    }
    if d.Some? && i.Some? {
      var displayIndex := IndexFrom(s, s[d.value.start..d.value.end], 0);
      var inlineIndex := IndexFrom(s, s[i.value.start..i.value.end], 0);
      if displayIndex <= inlineIndex {
        return true, displayIndex, d.value.end, true;
      } else {
        return true, inlineIndex, i.value.end, false;
      }
    } else if d.Some? {
      return true, IndexFrom(s, s[d.value.start..d.value.end], 0), d.value.end, true;
    } else if i.Some? {
      return true, IndexFrom(s, s[i.value.start..i.value.end], 0), i.value.end, false;
    }
    return false, 0, 0, false;
  }

  /** Where the renderer shows no formula the page shows the escaped text, whole and in order. */
  lemma {:induction false} NoFormulaShowsText(segs: seq<Segment>, katex: Katex)
    requires forall g :: g in segs && g.Formula? ==> katex(Content(g), g.display).None?
    ensures Html(segs, katex) == EscapeHtml(Raws(segs))
  {
    if segs != [] {
      NoFormulaShowsText(segs[1..], katex);
      EscapeJoins(segs[0].raw, Raws(segs[1..]));
    }
  }

  lemma FailingRendererLosesNothing(text: string, katex: Katex)
    requires forall content, display :: katex(content, display).None?
    ensures Html(Segments(text), katex) == EscapeHtml(text) && Unescape(Html(Segments(text), katex)) == text
  {
    NoFormulaShowsText(Segments(text), katex);
    SegmentsLoseNothing(text);
    EscapeIsReversible(text);
  }

  /** Text without a dollar sign is escaped and nothing else. */
  lemma PlainTextIsEscaped(text: string, katex: Katex)
    requires '$' !in text
    ensures Html(Segments(text), katex) == EscapeHtml(text)
  {
    if text != "" {
      EnginesReturnFirst(text);
      assert DisplayFrom(text, 0).None? && InlineFrom(text, 0).None?;
      HtmlOfRound(text, katex);
    }
  }
}
