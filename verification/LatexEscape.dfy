/** Escaping text for HTML by four replacements in a row. */
module LatexEscape {

  /** `text.replace(/c/g, by)` for a single character. */
  function ReplaceAll(s: string, c: char, r: string): string {
    if s == "" then "" else (if s[0] == c then r else [s[0]]) + ReplaceAll(s[1..], c, r)
  }

  function EscapeHtml(text: string): string {
    ReplaceAll(ReplaceAll(ReplaceAll(ReplaceAll(text, '&', "&amp;"), '<', "&lt;"), '>', "&gt;"), '\n', "<br/>")
  }

  /** What each character means to the page. */
  function EscapeChar(c: char): string {
    match c
    case '&' => "&amp;"
    case '<' => "&lt;"
    case '>' => "&gt;"
    case '\n' => "<br/>"
    case _ => [c]
  }

  function EscapeEach(s: string): string {
    if s == "" then "" else EscapeChar(s[0]) + EscapeEach(s[1..])
  }

  lemma {:induction false} ReplaceJoins(a: string, b: string, c: char, r: string)
    ensures ReplaceAll(a + b, c, r) == ReplaceAll(a, c, r) + ReplaceAll(b, c, r)
  {
    if a == "" {
      assert a + b == b;
    } else {
      assert (a + b)[1..] == a[1..] + b;
      ReplaceJoins(a[1..], b, c, r);
    }
  }

  /** Escaping works piece by piece. */
  lemma EscapeJoins(a: string, b: string)
    ensures EscapeHtml(a + b) == EscapeHtml(a) + EscapeHtml(b)
  {
    var a1, b1 := ReplaceAll(a, '&', "&amp;"), ReplaceAll(b, '&', "&amp;");
    var a2, b2 := ReplaceAll(a1, '<', "&lt;"), ReplaceAll(b1, '<', "&lt;");
    var a3, b3 := ReplaceAll(a2, '>', "&gt;"), ReplaceAll(b2, '>', "&gt;");
    hide ReplaceAll;
    ReplaceJoins(a, b, '&', "&amp;");
    ReplaceJoins(a1, b1, '<', "&lt;");
    ReplaceJoins(a2, b2, '>', "&gt;");
    ReplaceJoins(a3, b3, '\n', "<br/>");
  }

  lemma {:induction false} ReplaceNothing(s: string, c: char, r: string)
    requires c !in s
    ensures ReplaceAll(s, c, r) == s
  {
    if s != "" {
      assert s == [s[0]] + s[1..];
      ReplaceNothing(s[1..], c, r);
    }
  }

  lemma ReplaceOne(c: char, r: string)
    ensures ReplaceAll([c], c, r) == r
  {
    assert [c][1..] == "";
    assert r + "" == r;
  }

  lemma EscapeOne(c: char)
    ensures EscapeHtml([c]) == EscapeChar(c)
  {
    hide ReplaceAll;
    ReplaceOne(c, EscapeChar(c));
    if c == '&' {
      ReplaceNothing("&amp;", '<', "&lt;");
      ReplaceNothing("&amp;", '>', "&gt;");
      ReplaceNothing("&amp;", '\n', "<br/>");
    } else {
      ReplaceNothing([c], '&', "&amp;");
      if c == '<' {
        ReplaceNothing("&lt;", '>', "&gt;");
        ReplaceNothing("&lt;", '\n', "<br/>");
      } else {
        ReplaceNothing([c], '<', "&lt;");
        if c == '>' {
          ReplaceNothing("&gt;", '\n', "<br/>");
        } else {
          ReplaceNothing([c], '>', "&gt;");
          if c != '\n' {
            ReplaceNothing([c], '\n', "<br/>");
          }
        }
      }
    }
  }

  /** The four passes are one map over the characters. */
  lemma {:induction false} EscapeIsPerCharacter(s: string)
    ensures EscapeHtml(s) == EscapeEach(s)
  {
    if s != "" {
      EscapeOne(s[0]);
      EscapeIsPerCharacter(s[1..]);
      assert s == [s[0]] + s[1..];
      EscapeJoins([s[0]], s[1..]);
    }
  }

  // ---------------------------------------------------------------- reading it back

  predicate StartsWith(s: string, p: string) {
    |p| <= |s| && s[..|p|] == p
  }

  function Unescape(h: string): string {
    if h == "" then ""
    else if StartsWith(h, "&amp;") then "&" + Unescape(h[5..])
    else if StartsWith(h, "&lt;") then "<" + Unescape(h[4..])
    else if StartsWith(h, "&gt;") then ">" + Unescape(h[4..])
    else if StartsWith(h, "<br/>") then "\n" + Unescape(h[5..])
    else [h[0]] + Unescape(h[1..])
  }

  /** A text begins with at most one of the entities, and then shows it. */
  lemma OneEntity(h: string, e: string)
    requires StartsWith(h, e)
    ensures e == "&amp;" ==> h[0] == '&' && h[1] == 'a'
    ensures e == "&lt;" ==> h[0] == '&' && h[1] == 'l'
    ensures e == "&gt;" ==> h[0] == '&' && h[1] == 'g'
    ensures e == "<br/>" ==> h[0] == '<'
  {
    assert forall k :: 0 <= k < |e| ==> h[k] == h[..|e|][k];
  }

  lemma Alone(h: string)
    ensures StartsWith(h, "&lt;") || StartsWith(h, "&gt;") || StartsWith(h, "<br/>") ==> !StartsWith(h, "&amp;")
    ensures StartsWith(h, "&gt;") || StartsWith(h, "<br/>") ==> !StartsWith(h, "&lt;")
    ensures StartsWith(h, "<br/>") ==> !StartsWith(h, "&gt;")
    ensures h != "" && h[0] != '&' && h[0] != '<' ==>
              !StartsWith(h, "&amp;") && !StartsWith(h, "&lt;") && !StartsWith(h, "&gt;") && !StartsWith(h, "<br/>")
  {
    hide StartsWith;
    if StartsWith(h, "&amp;") { OneEntity(h, "&amp;"); }
    if StartsWith(h, "&lt;") { OneEntity(h, "&lt;"); }
    if StartsWith(h, "&gt;") { OneEntity(h, "&gt;"); }
    if StartsWith(h, "<br/>") { OneEntity(h, "<br/>"); }
  }

  lemma UnescapeHead(c: char, rest: string)
    ensures Unescape(EscapeChar(c) + rest) == [c] + Unescape(rest)
  {
    var h := EscapeChar(c) + rest;
    assert h[|EscapeChar(c)|..] == rest;
    assert StartsWith(h, EscapeChar(c)) by { assert h[..|EscapeChar(c)|] == EscapeChar(c); }
    hide StartsWith;
    Alone(h);
  }

  /** No escaped text stands for two texts. */
  lemma {:induction false} EscapeIsReversible(s: string)
    ensures Unescape(EscapeHtml(s)) == s
  {
    EscapeIsPerCharacter(s);
    if s != "" {
      EscapeIsPerCharacter(s[1..]);
      EscapeIsReversible(s[1..]);
      UnescapeHead(s[0], EscapeEach(s[1..]));
      assert s == [s[0]] + s[1..];
    }
  }

  lemma EscapeIsInjective(s: string, t: string)
    requires EscapeHtml(s) == EscapeHtml(t)
    ensures s == t
  {
    EscapeIsReversible(s);
    EscapeIsReversible(t);
  }

  /** Position `k` of `h` lies at either end of a line break tag. */
  predicate InBreak(h: string, k: nat)
    requires k < |h|
  {
    var start := if h[k] == '<' then k as int else k as int - 4;
    0 <= start <= |h| - 5 && h[start..start + 5] == "<br/>"
  }

  lemma BreakShifts(head: string, rest: string, k: nat)
    requires k < |rest| && InBreak(rest, k)
    ensures InBreak(head + rest, |head| + k)
  {
    var start := if rest[k] == '<' then k as int else k as int - 4;
    assert (head + rest)[|head| + start..|head| + start + 5] == rest[start..start + 5];
  }

  lemma BreakAtFront(rest: string)
    ensures InBreak("<br/>" + rest, 0) && InBreak("<br/>" + rest, 4)
  {
    assert ("<br/>" + rest)[0..5] == "<br/>";
  }

  /** The angle brackets of an escaped text are those of its line breaks, and no others. */
  lemma {:induction false} OnlyBreaksAreTags(s: string, k: nat)
    requires k < |EscapeEach(s)| && (EscapeEach(s)[k] == '<' || EscapeEach(s)[k] == '>')
    ensures EscapeHtml(s) == EscapeEach(s) && InBreak(EscapeHtml(s), k)
  {
    hide EscapeHtml, InBreak;
    EscapeIsPerCharacter(s);
    var head, rest := EscapeChar(s[0]), EscapeEach(s[1..]);
    if k >= |head| {
      OnlyBreaksAreTags(s[1..], k - |head|);
      BreakShifts(head, rest, k - |head|);
    } else {
      BreakAtFront(rest);
    }
  }
}
