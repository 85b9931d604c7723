/**
 * escapeHTML: five global replacements applied in a fixed order, ampersand
 * first. The chain is proved equal to a character-by-character escape, so no
 * markup character survives and the escape can be undone.
 */
module EscapeHtml {

  /** `s.replace(/c/g, rep)`: every occurrence of `c` becomes `rep`. */
  function ReplaceAll(s: string, c: char, rep: string): (r: string)
  {
    if s == [] then [] else (if s[0] == c then rep else [s[0]]) + ReplaceAll(s[1..], c, rep)
  }

  /** escapeHTML as the source writes it: the replacement chain. */
  function EscapeHTML(s: string): (r: string)
  {
    var amp := ReplaceAll(s, '&', "&amp;");
    var lt := ReplaceAll(amp, '<', "&lt;");
    var gt := ReplaceAll(lt, '>', "&gt;");
    var quot := ReplaceAll(gt, '"', "&quot;");
    ReplaceAll(quot, '\'', "&#039;")
  }

  /** The entity one character escapes to. */
  function EscapeChar(c: char): (r: string)
    ensures r != []
    ensures r[0] == '&' <==> c in "&<>\"'"
  {
    match c
    case '&' => "&amp;"
    case '<' => "&lt;"
    case '>' => "&gt;"
    case '"' => "&quot;"
    case '\'' => "&#039;"
    case _ => [c]
  }

  /** The reference definition: escape each character on its own. */
  function Escape(s: string): string
  {
    if s == [] then [] else EscapeChar(s[0]) + Escape(s[1..])
  }

  lemma {:induction false} ReplaceAllAppend(a: string, b: string, c: char, rep: string)
    ensures ReplaceAll(a + b, c, rep) == ReplaceAll(a, c, rep) + ReplaceAll(b, c, rep)
  {
    if a == [] {
      assert a + b == b;
    } else {
      assert (a + b)[0] == a[0];
      assert (a + b)[1..] == a[1..] + b;
      ReplaceAllAppend(a[1..], b, c, rep);
    }
  }

  /**
   * A global replacement removes every occurrence of `c` (unless `rep` brings
   * it back), keeps every other character, and adds only characters of `rep`.
   */
  lemma {:induction false} ReplaceAllMembers(s: string, c: char, rep: string)
    ensures var r := ReplaceAll(s, c, rep);
            && (c !in rep ==> c !in r)
            && (forall x :: x in r ==> x in rep || (x in s && x != c))
            && (forall x :: x in s && x != c ==> x in r)
  {
    if s != [] {
      ReplaceAllMembers(s[1..], c, rep);
      assert s == [s[0]] + s[1..];
    }
  }

  lemma {:induction false} ReplaceAllAbsent(s: string, c: char, rep: string)
    requires c !in s
    ensures ReplaceAll(s, c, rep) == s
  {
    if s != [] {
      assert s[0] in s;
      assert s == [s[0]] + s[1..];
      ReplaceAllAbsent(s[1..], c, rep);
    }
  }

  lemma ReplaceAllSingle(x: char, c: char, rep: string)
    ensures ReplaceAll([x], c, rep) == if x == c then rep else [x]
  {
    assert [x][1..] == [];
  }

  /** Escaping distributes over concatenation. */
  lemma {:induction false} EscapeHTMLAppend(a: string, b: string)
    ensures EscapeHTML(a + b) == EscapeHTML(a) + EscapeHTML(b)
  {
    ReplaceAllAppend(a, b, '&', "&amp;");
    var a1, b1 := ReplaceAll(a, '&', "&amp;"), ReplaceAll(b, '&', "&amp;");
    ReplaceAllAppend(a1, b1, '<', "&lt;");
    var a2, b2 := ReplaceAll(a1, '<', "&lt;"), ReplaceAll(b1, '<', "&lt;");
    ReplaceAllAppend(a2, b2, '>', "&gt;");
    var a3, b3 := ReplaceAll(a2, '>', "&gt;"), ReplaceAll(b2, '>', "&gt;");
    ReplaceAllAppend(a3, b3, '"', "&quot;");
    var a4, b4 := ReplaceAll(a3, '"', "&quot;"), ReplaceAll(b3, '"', "&quot;");
    ReplaceAllAppend(a4, b4, '\'', "&#039;");
  }

  /**
   * The chain escapes one character exactly as EscapeChar does: the ampersand
   * goes first, so no entity introduced by a later replacement is escaped again.
   */
  lemma EscapeHTMLChar(c: char)
    ensures EscapeHTML([c]) == EscapeChar(c)
  {
    match c
    case '&' => EscapeHTMLAmp();
    case '<' => EscapeHTMLLt();
    case '>' => EscapeHTMLGt();
    case '"' => EscapeHTMLQuot();
    case '\'' => EscapeHTMLApos();
    case _ => EscapeHTMLOrdinary(c);
  }

  lemma EscapeHTMLAmp()
    ensures EscapeHTML("&") == "&amp;"
  {
    var amp := ReplaceAll(['&'], '&', "&amp;");
    ReplaceAllSingle('&', '&', "&amp;");
    assert amp == "&amp;";
    var lt := ReplaceAll(amp, '<', "&lt;");
    ReplaceAllAbsent(amp, '<', "&lt;");
    assert lt == "&amp;";
    var gt := ReplaceAll(lt, '>', "&gt;");
    ReplaceAllAbsent(lt, '>', "&gt;");
    assert gt == "&amp;";
    var quot := ReplaceAll(gt, '"', "&quot;");
    ReplaceAllAbsent(gt, '"', "&quot;");
    assert quot == "&amp;";
    var apos := ReplaceAll(quot, '\'', "&#039;");
    ReplaceAllAbsent(quot, '\'', "&#039;");
    assert apos == "&amp;";
  }

  lemma EscapeHTMLLt()
    ensures EscapeHTML("<") == "&lt;"
  {
    var amp := ReplaceAll(['<'], '&', "&amp;");
    ReplaceAllAbsent(['<'], '&', "&amp;");
    assert amp == ['<'];
    var lt := ReplaceAll(amp, '<', "&lt;");
    ReplaceAllSingle('<', '<', "&lt;");
    assert lt == "&lt;";
    var gt := ReplaceAll(lt, '>', "&gt;");
    ReplaceAllAbsent(lt, '>', "&gt;");
    assert gt == "&lt;";
    var quot := ReplaceAll(gt, '"', "&quot;");
    ReplaceAllAbsent(gt, '"', "&quot;");
    assert quot == "&lt;";
    var apos := ReplaceAll(quot, '\'', "&#039;");
    ReplaceAllAbsent(quot, '\'', "&#039;");
    assert apos == "&lt;";
  }

  lemma EscapeHTMLGt()
    ensures EscapeHTML(">") == "&gt;"
  {
    var amp := ReplaceAll(['>'], '&', "&amp;");
    ReplaceAllAbsent(['>'], '&', "&amp;");
    assert amp == ['>'];
    var lt := ReplaceAll(amp, '<', "&lt;");
    ReplaceAllAbsent(amp, '<', "&lt;");
    assert lt == ['>'];
    var gt := ReplaceAll(lt, '>', "&gt;");
    ReplaceAllSingle('>', '>', "&gt;");
    assert gt == "&gt;";
    var quot := ReplaceAll(gt, '"', "&quot;");
    ReplaceAllAbsent(gt, '"', "&quot;");
    assert quot == "&gt;";
    var apos := ReplaceAll(quot, '\'', "&#039;");
    ReplaceAllAbsent(quot, '\'', "&#039;");
    assert apos == "&gt;";
  }

  lemma EscapeHTMLQuot()
    ensures EscapeHTML("\"") == "&quot;"
  {
    var amp := ReplaceAll(['"'], '&', "&amp;");
    ReplaceAllAbsent(['"'], '&', "&amp;");
    assert amp == ['"'];
    var lt := ReplaceAll(amp, '<', "&lt;");
    ReplaceAllAbsent(amp, '<', "&lt;");
    assert lt == ['"'];
    var gt := ReplaceAll(lt, '>', "&gt;");
    ReplaceAllAbsent(lt, '>', "&gt;");
    assert gt == ['"'];
    var quot := ReplaceAll(gt, '"', "&quot;");
    ReplaceAllSingle('"', '"', "&quot;");
    assert quot == "&quot;";
    var apos := ReplaceAll(quot, '\'', "&#039;");
    ReplaceAllAbsent(quot, '\'', "&#039;");
    assert apos == "&quot;";
  }

  lemma EscapeHTMLApos()
    ensures EscapeHTML("'") == "&#039;"
  {
    var amp := ReplaceAll(['\''], '&', "&amp;");
    ReplaceAllAbsent(['\''], '&', "&amp;");
    assert amp == ['\''];
    var lt := ReplaceAll(amp, '<', "&lt;");
    ReplaceAllAbsent(amp, '<', "&lt;");
    assert lt == ['\''];
    var gt := ReplaceAll(lt, '>', "&gt;");
    ReplaceAllAbsent(lt, '>', "&gt;");
    assert gt == ['\''];
    var quot := ReplaceAll(gt, '"', "&quot;");
    ReplaceAllAbsent(gt, '"', "&quot;");
    assert quot == ['\''];
    var apos := ReplaceAll(quot, '\'', "&#039;");
    ReplaceAllSingle('\'', '\'', "&#039;");
    assert apos == "&#039;";
  }

  lemma EscapeHTMLOrdinary(c: char)
    requires c !in "&<>\"'"
    ensures EscapeHTML([c]) == [c]
  {
    ReplaceAllAbsent([c], '&', "&amp;");
    ReplaceAllAbsent([c], '<', "&lt;");
    ReplaceAllAbsent([c], '>', "&gt;");
    ReplaceAllAbsent([c], '"', "&quot;");
    ReplaceAllAbsent([c], '\'', "&#039;");
  }

  /** The replacement chain and the character-wise escape agree on every string. */
  lemma {:induction false} EscapeHTMLIsCharwise(s: string)
    ensures EscapeHTML(s) == Escape(s)
  {
    if s != [] {
      assert s == [s[0]] + s[1..];
      EscapeHTMLAppend([s[0]], s[1..]);
      EscapeHTMLChar(s[0]);
      EscapeHTMLIsCharwise(s[1..]);
    }
  }

  lemma {:induction false} EscapeNoMarkup(s: string)
    ensures forall x :: x in Escape(s) ==> x !in "<>\"'"
  {
    if s != [] {
      EscapeNoMarkup(s[1..]);
    }
  }

  /** The escaped text holds no `<`, `>`, `"` or `'`, so it cannot open a tag or end an attribute. */
  lemma EscapeHTMLNoMarkup(s: string)
    ensures forall x :: x in EscapeHTML(s) ==> x !in "<>\"'"
  {
    EscapeHTMLIsCharwise(s);
    EscapeNoMarkup(s);
  }

  /** Text without special characters is left as it is. */
  lemma {:induction false} EscapeHTMLPlain(s: string)
    requires forall x :: x in s ==> x !in "&<>\"'"
    ensures EscapeHTML(s) == s
  {
    EscapeHTMLIsCharwise(s);
    EscapePlain(s);
  }

  lemma {:induction false} EscapePlain(s: string)
    requires forall x :: x in s ==> x !in "&<>\"'"
    ensures Escape(s) == s
  {
    if s != [] {
      assert s[0] in s;
      EscapePlain(s[1..]);
    }
  }

  /** Decode the five entities, leftmost first; every other character stands for itself. */
  function Unescape(t: string): string
    decreases |t|
  {
    if t == [] then []
    else if |t| >= 5 && t[..5] == "&amp;" then ['&'] + Unescape(t[5..])
    else if |t| >= 4 && t[..4] == "&lt;" then ['<'] + Unescape(t[4..])
    else if |t| >= 4 && t[..4] == "&gt;" then ['>'] + Unescape(t[4..])
    else if |t| >= 6 && t[..6] == "&quot;" then ['"'] + Unescape(t[6..])
    else if |t| >= 6 && t[..6] == "&#039;" then ['\''] + Unescape(t[6..])
    else [t[0]] + Unescape(t[1..])
  }

  lemma UnescapeStep(c: char, rest: string)
    ensures Unescape(EscapeChar(c) + rest) == [c] + Unescape(rest)
  {
    var e := EscapeChar(c);
    var t := e + rest;
    assert t[..|e|] == e;
    assert t[|e|..] == rest;
    if c !in "&<>\"'" {
      assert t[0] == c != '&';
      assert |t| >= 4 ==> t[..4][0] == c;
      assert |t| >= 5 ==> t[..5][0] == c;
      assert |t| >= 6 ==> t[..6][0] == c;
    } else if c != '&' {
      assert t[1] == e[1] != 'a';
      assert |t| >= 5 ==> t[..5][1] == e[1];
      if c != '<' {
        assert t[1] != 'l';
        assert t[..4][1] == e[1];
        if c != '>' {
          assert t[1] != 'g';
          if c != '"' {
            assert t[1] != 'q';
            assert t[..6][1] == e[1];
          }
        }
      }
    }
  }

  lemma {:induction false} UnescapeEscape(s: string)
    ensures Unescape(Escape(s)) == s
  {
    if s != [] {
      UnescapeStep(s[0], Escape(s[1..]));
      UnescapeEscape(s[1..]);
    }
  }

  /** No information is lost: the escaped text decodes back to the original. */
  lemma EscapeHTMLRoundTrip(s: string)
    ensures Unescape(EscapeHTML(s)) == s
  {
    EscapeHTMLIsCharwise(s);
    UnescapeEscape(s);
  }
}
