/** Which text is a formula: the first formula of any text, told from the text around and between its
    delimiters, and what the page shows for it. */
module LatexFormulas {
  import opened Prelude
  import opened LatexEscape
  import opened LatexRender

  // ---------------------------------------------------------------- amounts of money

  predicate Digital(m: string) {
    m != "" && forall c | c in m :: c in "0123456789"
  }

  predicate Spaces(s: string) {
    forall c | c in s :: ScriptSpace(c)
  }

  /** `\d+[.,]\d{2}`. */
  predicate Decimal(m: string, a: string, b: string) {
    (m == a + "." + b || m == a + "," + b) && Digital(a) && Digital(b) && |b| == 2
  }

  /** Something that begins with `\d{1,3},\d{3}`. */
  predicate Grouped(m: string, a: string, b: string, rest: string) {
    m == a + "," + b + rest && Digital(a) && |a| <= 3 && Digital(b) && |b| == 3
  }

  ghost predicate AmountForm(m: string) {
    Digital(m) || (exists a, b :: Decimal(m, a, b)) || (exists a, b, rest :: Grouped(m, a, b, rest))
  }

  /** An amount with any space around it. */
  ghost predicate Amount(c: string) {
    exists l, m, r :: c == l + m + r && Spaces(l) && Spaces(r) && AmountForm(m)
  }

  lemma DigitalIff(s: string)
    ensures Digits(s) <==> Digital(s)
  {
    if Digits(s) {
      forall c | c in s ensures c in "0123456789" { var k :| 0 <= k < |s| && s[k] == c; DigitListed(c); }
    } else if Digital(s) {
      forall k | 0 <= k < |s| ensures IsDigit(s[k]) { assert s[k] in s; DigitListed(s[k]); }
    }
  }

  lemma DigitListed(c: char)
    ensures IsDigit(c) <==> c in "0123456789"
  {
    var all := "0123456789";
    if IsDigit(c) {
      assert all[c as int - '0' as int] == c;
    }
  }

  lemma MoneyIsAmount(t: string)
    requires LooksLikeMoney(t)
    ensures AmountForm(t)
  {
    hide Digital, IsDigit, Digits;
    DigitalIff(t);
    if !Digits(t) {
      if |t| > 3 && Digits(t[..|t| - 3]) && (t[|t| - 3] == '.' || t[|t| - 3] == ',') && Digits(t[|t| - 2..]) {
        var a, b := t[..|t| - 3], t[|t| - 2..];
        DigitalIff(a);
        DigitalIff(b);
        assert t == a + [t[|t| - 3]] + b;
        assert Decimal(t, a, b);
      } else {
        var k :| 1 <= k <= 3 && k + 4 <= |t| && Digits(t[..k]) && t[k] == ',' && Digits(t[k + 1..k + 4]);
        GroupedFrom(t, k);
      }
    }
  }

  lemma GroupedFrom(t: string, k: nat)
    requires 1 <= k <= 3 && k + 4 <= |t| && Digits(t[..k]) && t[k] == ',' && Digits(t[k + 1..k + 4])
    ensures Grouped(t, t[..k], t[k + 1..k + 4], t[k + 4..])
  {
    hide Digital, IsDigit, Digits;
    DigitalIff(t[..k]);
    DigitalIff(t[k + 1..k + 4]);
    assert t == t[..k] + [t[k]] + t[k + 1..k + 4] + t[k + 4..];
  }

  lemma AmountIsMoney(t: string)
    requires AmountForm(t)
    ensures LooksLikeMoney(t)
  {
    hide Digital, LooksLikeMoney, Decimal, Grouped;
    if Digital(t) {
      DigitsAreMoney(t);
    } else if a, b :| Decimal(t, a, b) {
      DecimalIsMoney(t, a, b);
    } else {
      var a, b, rest :| Grouped(t, a, b, rest);
      GroupedIsMoney(t, a, b, rest);
    }
  }

  lemma DigitsAreMoney(t: string)
    requires Digital(t)
    ensures LooksLikeMoney(t)
  {
    hide Digital, IsDigit, Digits;
    DigitalIff(t);
  }

  lemma DecimalIsMoney(t: string, a: string, b: string)
    requires Decimal(t, a, b)
    ensures LooksLikeMoney(t)
  {
    assert a != "";
    hide Digital, IsDigit, Digits;
    DigitalIff(a);
    DigitalIff(b);
    assert t[..|t| - 3] == a && t[|t| - 2..] == b;
  }

  lemma GroupedIsMoney(t: string, a: string, b: string, rest: string)
    requires Grouped(t, a, b, rest)
    ensures LooksLikeMoney(t)
  {
    assert a != "";
    hide Digital, IsDigit, Digits;
    DigitalIff(a);
    DigitalIff(b);
    assert t[..|a|] == a && t[|a|] == ',' && t[|a| + 1..|a| + 4] == b;
  }

  // ---------------------------------------------------------------- trimming

  lemma {:induction false} TrimLeftDrops(l: string, s: string)
    requires Spaces(l) && (s == "" || !ScriptSpace(s[0]))
    ensures TrimLeft(l + s) == s
  {
    if l == "" {
      assert l + s == s;
    } else {
      assert (l + s)[1..] == l[1..] + s && l[0] in l;
      TrimLeftDrops(l[1..], s);
    }
  }

  lemma {:induction false} TrimRightKeeps(p: string, x: string)
    requires p != "" && !ScriptSpace(p[|p| - 1])
    ensures TrimRight(p + x) == p + TrimRight(x)
  {
    if x == "" {
      assert p + x == p;
    } else if ScriptSpace(x[|x| - 1]) {
      assert (p + x)[..|p + x| - 1] == p + x[..|x| - 1];
      TrimRightKeeps(p, x[..|x| - 1]);
    }
  }

  lemma {:induction false} TrimRightSpaces(r: string)
    requires Spaces(r)
    ensures TrimRight(r) == ""
  {
    if r != "" {
      assert r[|r| - 1] in r;
      TrimRightSpaces(r[..|r| - 1]);
    }
  }

  lemma {:induction false} TrimLeftSplits(s: string)
    ensures exists l :: s == l + TrimLeft(s) && Spaces(l)
  {
    if s != "" && ScriptSpace(s[0]) {
      TrimLeftSplits(s[1..]);
      var l :| s[1..] == l + TrimLeft(s[1..]) && Spaces(l);
      assert s == ([s[0]] + l) + TrimLeft(s) && Spaces([s[0]] + l);
    } else {
      assert s == "" + TrimLeft(s);
    }
  }

  lemma {:induction false} TrimRightSplits(s: string)
    ensures exists r :: s == TrimRight(s) + r && Spaces(r)
  {
    if s != "" && ScriptSpace(s[|s| - 1]) {
      var before := s[..|s| - 1];
      TrimRightSplits(before);
      var r :| before == TrimRight(before) + r && Spaces(r);
      assert s == TrimRight(s) + (r + [s[|s| - 1]]) && Spaces(r + [s[|s| - 1]]);
    } else {
      assert s == TrimRight(s) + "";
    }
  }

  /** Text that begins and ends without space is what trimming leaves. */
  lemma TrimLeavesCore(l: string, m: string, r: string)
    requires Spaces(l) && Spaces(r) && m != "" && !ScriptSpace(m[0]) && !ScriptSpace(m[|m| - 1])
    ensures Trim(l + m + r) == m
  {
    assert l + m + r == l + (m + r);
    TrimLeftDrops(l, m + r);
    TrimRightKeeps(m, r);
    TrimRightSpaces(r);
    assert m + "" == m;
  }

  lemma DigitIsNoSpace(s: string)
    requires Digital(s)
    ensures !ScriptSpace(s[0]) && !ScriptSpace(s[|s| - 1])
  {
    assert s[0] in s && s[|s| - 1] in s;
  }

  /** Whether trimmed text looks like money is whether the text is an amount with space around it. */
  lemma TrimmedMoneyIffAmount(c: string)
    ensures LooksLikeMoney(Trim(c)) <==> Amount(c)
  {
    hide LooksLikeMoney, AmountForm;
    if LooksLikeMoney(Trim(c)) {
      MoneyIsAmount(Trim(c));
      TrimLeftSplits(c);
      TrimRightSplits(TrimLeft(c));
      var l :| c == l + TrimLeft(c) && Spaces(l);
      var r :| TrimLeft(c) == Trim(c) + r && Spaces(r);
      assert c == l + Trim(c) + r;
    } else if Amount(c) {
      var l, m, r :| c == l + m + r && Spaces(l) && Spaces(r) && AmountForm(m);
      AmountSurvivesTrim(l, m, r);
      assert false;
    }
  }

  lemma AmountSurvivesTrim(l: string, m: string, r: string)
    requires Spaces(l) && Spaces(r) && AmountForm(m)
    ensures LooksLikeMoney(Trim(l + m + r))
  {
    hide LooksLikeMoney, Digital, Decimal, Grouped, Spaces, Trim;
    if Digital(m) {
      DigitIsNoSpace(m);
      assert m != "" by { AmountNotEmpty(m); }
      TrimLeavesCore(l, m, r);
      AmountIsMoney(m);
    } else if a, b :| Decimal(m, a, b) {
      DecimalEnds(m, a, b);
      TrimLeavesCore(l, m, r);
      AmountIsMoney(m);
    } else {
      var a, b, rest :| Grouped(m, a, b, rest);
      GroupedSurvives(l, m, r, a, b, rest);
    }
  }

  lemma DecimalEnds(m: string, a: string, b: string)
    requires Decimal(m, a, b)
    ensures m != "" && !ScriptSpace(m[0]) && !ScriptSpace(m[|m| - 1])
  {
    DigitIsNoSpace(a);
    DigitIsNoSpace(b);
    assert m[0] == a[0] && m[|m| - 1] == b[|b| - 1];
  }

  lemma GroupedSurvives(l: string, m: string, r: string, a: string, b: string, rest: string)
    requires Spaces(l) && Grouped(m, a, b, rest)
    ensures LooksLikeMoney(Trim(l + m + r))
  {
    DigitIsNoSpace(a);
    DigitIsNoSpace(b);
    var p := a + "," + b;
    assert p[|p| - 1] == b[|b| - 1] && m[0] == a[0];
    hide LooksLikeMoney, Digital, Spaces;
    assert l + m + r == l + (m + r) && m + r == p + (rest + r);
    TrimLeftDrops(l, m + r);
    TrimRightKeeps(p, rest + r);
    GroupedIsMoney(p + TrimRight(rest + r), a, b, TrimRight(rest + r));
  }

  lemma AmountNotEmpty(m: string)
    requires AmountForm(m)
    ensures m != ""
  {
  }

  // ---------------------------------------------------------------- the first formula of a text

  /** Text, space or an opening mark may stand before a formula, and a closing mark after it. */
  predicate MayPrecede(pre: string) {
    pre == "" || ScriptSpace(pre[|pre| - 1]) || pre[|pre| - 1] in ['(', '{', '[', ',', ';', ':', '!', '?']
  }

  predicate MayFollow(post: string) {
    post == "" || ScriptSpace(post[0]) || post[0] in [')', '}', ']', '.', ',', ';', ':', '!', '?']
  }

  function Part(pre: string): seq<Segment> {
    if pre == "" then [] else [Text(pre)]
  }

  lemma OneSpan(pre: string, c: string, post: string)
    requires '$' !in pre && '$' !in c && '\n' !in c && c != ""
    ensures var s, n := pre + "$" + c + "$" + post, |pre|;
            && InlineFrom(s, 0) == Some(Span(n, n + |c| + 2))
            && (DisplayFrom(s, 0).Some? ==> DisplayFrom(s, 0).value.start > n)
            && s[..n] == pre && s[n + 1..n + |c| + 1] == c && s[n..n + |c| + 2] == "$" + c + "$"
            && s[n + |c| + 2..] == post
            && s[..n + 1] == pre + "$" && s[n + 1..] == c + "$" + post
  {
    var s, n := pre + "$" + c + "$" + post, |pre|;
    assert forall k :: 0 <= k < n ==> s[k] == pre[k] && s[k] in pre;
    assert s[n] == '$' && s[n + |c| + 1] == '$';
    assert forall k :: n < k < n + |c| + 1 ==> s[k] == c[k - n - 1] && s[k] in c;
    assert InlineAt(s, n, n + |c| + 2);
    var i := InlineFrom(s, 0);
    assert i.Some? && i.value.start == n;
  }

  lemma ValidIff(pre: string, c: string, post: string)
    requires c != ""
    ensures var s, n := pre + "$" + c + "$" + post, |pre|;
            IsValidInlineDelimiter(s, n, n + |c| + 2) <==> !Amount(c) && MayPrecede(pre) && MayFollow(post)
  {
    hide LooksLikeMoney, Amount;
    var s, n := pre + "$" + c + "$" + post, |pre|;
    assert s[n + 1..n + |c| + 1] == c;
    TrimmedMoneyIffAmount(c);
    if pre != "" { assert s[n - 1] == pre[|pre| - 1]; BeforeMarks(pre[|pre| - 1]); }
    if post != "" { assert s[n + |c| + 2] == post[0]; AfterMarks(post[0]); }
  }

  lemma BeforeMarks(c: char)
    ensures c in "({[,;:!?" <==> c in ['(', '{', '[', ',', ';', ':', '!', '?']
  {
  }

  lemma AfterMarks(c: char)
    ensures c in ")}].,;:!?" <==> c in [')', '}', ']', '.', ',', ';', ':', '!', '?']
  {
  }

  /** The first two dollar signs of any text with something but a line break between them: the text between
      is a formula exactly when it is no amount and only space or punctuation of the right kind stands
      beside the signs; otherwise the first sign is text and the search goes on behind it. */
  lemma FirstInlineFormula(pre: string, c: string, post: string)
    requires '$' !in pre && '$' !in c && '\n' !in c && c != ""
    ensures Segments(pre + "$" + c + "$" + post)
            == if !Amount(c) && MayPrecede(pre) && MayFollow(post) then
               Part(pre) + [Formula("$" + c + "$", false)] + Segments(post)
               else [Text(pre + "$")] + Segments(c + "$" + post)
  {
    hide Amount, MayPrecede, MayFollow, IsValidInlineDelimiter, Segments, DisplayFrom, InlineFrom;
    var s, n := pre + "$" + c + "$" + post, |pre|;
    OneSpan(pre, c, post);
    ValidIff(pre, c, post);
    SegmentsStep(s);
  }

  lemma SegmentsStep(s: string)
    requires s != ""
    ensures Segments(s) == RoundOf(s).0 + Segments(RoundOf(s).1)
  {
    hide RoundOf;
  }

  /** Two double dollar signs are the ends of a displayed formula whatever is between or beside them. */
  lemma FirstDisplayFormula(pre: string, c: string, post: string)
    requires '$' !in pre && '$' !in c
    ensures Segments(pre + "$$" + c + "$$" + post) == Part(pre) + [Formula("$$" + c + "$$", true)] + Segments(post)
  {
    hide Segments, IsValidInlineDelimiter;
    var s, n := pre + "$$" + c + "$$" + post, |pre|;
    assert forall k :: 0 <= k < n ==> s[k] == pre[k] && s[k] in pre;
    assert forall k :: n + 2 <= k < n + |c| + 2 ==> s[k] == c[k - n - 2] && s[k] in c;
    assert s[n] == '$' && s[n + 1] == '$' && s[n + |c| + 2] == '$' && s[n + |c| + 3] == '$';
    assert DisplayAt(s, n, n + |c| + 4);
    var d, i := DisplayFrom(s, 0), InlineFrom(s, 0);
    assert d == Some(Span(n, n + |c| + 4));
    assert i.Some? ==> n <= i.value.start;
    assert s[..n] == pre && s[n..n + |c| + 4] == "$$" + c + "$$" && s[n + |c| + 4..] == post;
    SegmentsStep(s);
  }

  predicate LetterOrDigit(c: char) {
    'a' <= c <= 'z' || 'A' <= c <= 'Z' || '0' <= c <= '9'
  }

  /** A letter or a digit against one of the signs makes the first of them text. */
  lemma LetterBesideMakesText(pre: string, c: string, post: string)
    requires '$' !in pre && '$' !in c && '\n' !in c && c != ""
    requires (pre != "" && LetterOrDigit(pre[|pre| - 1])) || (post != "" && LetterOrDigit(post[0]))
    ensures Segments(pre + "$" + c + "$" + post) == [Text(pre + "$")] + Segments(c + "$" + post)
  {
    hide Amount, Segments;
    FirstInlineFormula(pre, c, post);
  }

  /** With no further dollar sign there are just these segments: text in which no second sign follows has
      no formula. */
  lemma PlainTail(post: string)
    requires forall j, k :: 0 <= j < k < |post| ==> post[j] != '$' || post[k] != '$'
    ensures Segments(post) == Part(post)
  {
    hide IsValidInlineDelimiter;
    if post != "" {
      assert DisplayFrom(post, 0).None? && InlineFrom(post, 0).None?;
    }
  }

  /** An amount between dollar signs stays text. */
  lemma AmountStaysText(pre: string, l: string, m: string, r: string, post: string)
    requires '$' !in pre && '$' !in post && '$' !in l + m + r && '\n' !in l + m + r && Spaces(l) && Spaces(r)
             && AmountForm(m)
    ensures Segments(pre + "$" + (l + m + r) + "$" + post) == [Text(pre + "$"), Text(l + m + r + "$" + post)]
  {
    hide Segments, AmountForm, Spaces;
    var c := l + m + r;
    assert Amount(c);
    assert c != "" by { AmountNotEmpty(m); }
    FirstInlineFormula(pre, c, post);
    LoneSign(c, post);
    assert [Text(pre + "$")] + [Text(c + "$" + post)] == [Text(pre + "$"), Text(c + "$" + post)];
  }

  lemma LoneSign(c: string, post: string)
    requires '$' !in c && '$' !in post
    ensures Segments(c + "$" + post) == [Text(c + "$" + post)]
  {
    hide Segments;
    var s := c + "$" + post;
    forall j, k | 0 <= j < k < |s| ensures s[j] != '$' || s[k] != '$' {
      if j < |c| { assert s[j] == c[j] && s[j] in c; }
      if k > |c| { assert s[k] == post[k - |c| - 1] && s[k] in post; }
    }
    PlainTail(s);
  }

  /** Text with a character that no amount has, unless it begins with grouped thousands, is no amount. */
  lemma LettersAreNoAmount(c: string, k: nat)
    requires k < |c| && !ScriptSpace(c[k]) && c[k] !in "0123456789" && c[k] != '.' && c[k] != ','
    requires forall l, m, a, b, rest :: Spaces(l) && Grouped(m, a, b, rest) ==> c != l + m
    ensures !Amount(c)
  {
    hide Digital, Decimal, Grouped;
    if l, m, r :| c == l + m + r && Spaces(l) && Spaces(r) && AmountForm(m) {
      var x := c[k];
      assert x in c && (x in l || x in m || x in r);
      assert l + m + r == l + (m + r);
      if Digital(m) {
        DigitalLacks(m, x);
      } else if a, b :| Decimal(m, a, b) {
        DecimalLacks(m, a, b, x);
      } else {
        var a, b, rest :| Grouped(m, a, b, rest);
        StillGrouped(m, a, b, rest, r);
      }
      assert false;
    }
  }

  lemma DigitalLacks(m: string, x: char)
    requires Digital(m) && x !in "0123456789"
    ensures x !in m
  {
  }

  lemma DecimalLacks(m: string, a: string, b: string, x: char)
    requires Decimal(m, a, b) && x !in "0123456789" && x != '.' && x != ','
    ensures x !in m
  {
    DigitalLacks(a, x);
    DigitalLacks(b, x);
  }

  lemma StillGrouped(m: string, a: string, b: string, rest: string, r: string)
    requires Grouped(m, a, b, rest)
    ensures Grouped(m + r, a, b, rest + r)
  {
    hide Digital;
    assert m + r == a + "," + b + (rest + r);
  }

  // ---------------------------------------------------------------- the page

  lemma HtmlOfPart(pre: string, katex: Katex)
    ensures Html(Part(pre), katex) == EscapeHtml(pre)
  {
    if pre != "" {
      HtmlOfOne(Text(pre), katex);
    }
  }

  /** What the renderer is given, and what the page shows for it: the text between the signs without the
      space at its ends, in a wrapper, or the slice itself, escaped, when the renderer throws. */
  function OnPage(mark: string, c: string, m: string, display: bool, katex: Katex): string {
    match katex(m, display)
    case Some(html) =>
      var opening := if display then "<span class=\"katex-wrapper katex-display\">"
                     else "<span class=\"katex-wrapper\">";
      opening + html + "</span>"
    case None => EscapeHtml(mark + c + mark)
  }

  lemma FormulaOnPage(l: string, m: string, r: string, display: bool, katex: Katex)
    requires Spaces(l) && Spaces(r) && m != "" && !ScriptSpace(m[0]) && !ScriptSpace(m[|m| - 1])
    ensures var mark, c := if display then "$$" else "$", l + m + r;
            Shown(Formula(mark + c + mark, display), katex) == OnPage(mark, c, m, display, katex)
  {
    hide EscapeHtml;
    var mark, c := if display then "$$" else "$", l + m + r;
    var raw, n := mark + c + mark, |mark|;
    assert raw[n..|raw| - n] == c;
    TrimLeavesCore(l, m, r);
    assert Content(Formula(raw, display)) == m;
    assert "<span class=\"katex-wrapper" + " katex-display" + "\">" == "<span class=\"katex-wrapper katex-display\">";
    assert "<span class=\"katex-wrapper" + "" + "\">" == "<span class=\"katex-wrapper\">";
  }

  /** The page of any text from its start through its first formula: the text before it escaped, the
      formula rendered, then the page of what follows. */
  lemma PageOfFirstFormula(pre: string, l: string, m: string, r: string, post: string, display: bool, katex: Katex)
    requires '$' !in pre && '$' !in l + m + r && Spaces(l) && Spaces(r)
    requires m != "" && !ScriptSpace(m[0]) && !ScriptSpace(m[|m| - 1])
    requires !display ==> '\n' !in l + m + r && !Amount(l + m + r) && MayPrecede(pre) && MayFollow(post)
    ensures var mark, c := if display then "$$" else "$", l + m + r;
            Html(Segments(pre + mark + c + mark + post), katex)
            == EscapeHtml(pre) + OnPage(mark, c, m, display, katex) + Html(Segments(post), katex)
  {
    hide EscapeHtml, Segments, Html, Amount, OnPage, Shown, Spaces;
    var mark, c := if display then "$$" else "$", l + m + r;
    var f := Formula(mark + c + mark, display);
    if display { FirstDisplayFormula(pre, c, post); } else { FirstInlineFormula(pre, c, post); }
    HtmlJoin(Part(pre) + [f], Segments(post), katex);
    HtmlJoin(Part(pre), [f], katex);
    HtmlOfPart(pre, katex);
    HtmlOfOne(f, katex);
    FormulaOnPage(l, m, r, display, katex);
  }
}
