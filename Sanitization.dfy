/** Content sanitisation of scraper/sanitization.py. The HTML cleaner (bleach)
    is not modelled: the two bleach-based steps are parameters of type
    string -> string. normalize_price and validate_price of this file are
    identical to the ones in core/security.py and reuse those definitions. */
module Sanitization {
  import opened Common
  import Security

  const MaxTextLength: nat := 10000
  const MaxProductNameLength: nat := 500
  const MaxBrandLength: nat := 255
  const MaxUpcLength: nat := 50

  /** Python's s[:n]. */
  function Take(s: string, n: nat): (r: string)
    ensures |r| <= n && r <= s
    ensures |s| <= n ==> r == s
  {
    if |s| <= n then s else s[..n]
  }

  // ---------------------------------------------------------------
  // sanitize_text
  // ---------------------------------------------------------------

  /** The class [\x00-\x08\x0b\x0c\x0e-\x1f\x7f] that sanitize_text deletes. */
  predicate IsRemovedControl(c: char)
  {
    c <= '\U{08}' || c == '\U{0b}' || c == '\U{0c}' || ('\U{0e}' <= c <= '\U{1f}') || c == '\U{7f}'
  }

  /** A character below U+0020, or DEL. */
  predicate IsControl(c: char)
  {
    c < ' ' || c == '\U{7f}'
  }

  function SanitizeText(text: string): (r: string)
    ensures text == [] ==> r == []
    ensures |r| <= MaxTextLength + 3
    ensures forall c :: c in r ==> !IsControl(c)
    ensures r == [] <==> forall c :: c in text ==> IsSpace(c) || IsRemovedControl(c)
    ensures |r| <= MaxTextLength ==> SingleSpaced(r)
    ensures |r| > MaxTextLength ==> |r| == MaxTextLength + 3 && r[MaxTextLength..] == "..."
  {
    if text == [] then []
    else
      var kept := Filter(text, c => !IsRemovedControl(c));
      var cleaned := CollapseSpaces(kept);
      assert (cleaned == []) <==> forall c :: c in text ==> IsSpace(c) || IsRemovedControl(c) by {
        assert (forall i :: 0 <= i < |kept| ==> IsSpace(kept[i])) <==> forall c :: c in kept ==> IsSpace(c);
      }
      assert forall c :: c in cleaned ==> !IsControl(c);
      if |cleaned| > MaxTextLength then
        var r := cleaned[..MaxTextLength] + "...";
        assert forall c :: c in r ==> c in cleaned[..MaxTextLength] || c == '.';
        assert forall c :: c in cleaned[..MaxTextLength] ==> c in cleaned;
        r
      else cleaned
  }

  // ---------------------------------------------------------------
  // sanitize_xss
  // ---------------------------------------------------------------

  /** The three patterns sanitize_xss deletes after the HTML cleaner, in the
      order it deletes them: javascript:, on\w+\s*= and
      <script[^>]*>.*?</script>, all case-insensitive. */
  datatype ScriptPattern = JavascriptScheme | EventHandler | ScriptBlock

  /** The fixed text each pattern starts with, in lower case. */
  function Lead(p: ScriptPattern): (t: string)
    ensures |t| >= 2
  {
    match p
    case JavascriptScheme => "javascript:"
    case EventHandler => "on"
    case ScriptBlock => "<script"
  }

  /** s starts with pat when ASCII case is ignored (pat is in lower case). */
  predicate StartsNoCase(s: string, pat: string)
  {
    |pat| <= |s| && forall i :: 0 <= i < |pat| ==> Lower(s[i]) == pat[i]
  }

  /** The regex class \w (its ASCII part). */
  predicate IsWordChar(c: char)
  {
    IsAlnum(c) || c == '_'
  }

  /** Length of the run of \w characters at the start of s. */
  function WordRunLen(s: string): (n: nat)
    ensures n <= |s|
    ensures forall i :: 0 <= i < n ==> IsWordChar(s[i])
    ensures n < |s| ==> !IsWordChar(s[n])
  {
    if s == [] || !IsWordChar(s[0]) then 0 else 1 + WordRunLen(s[1..])
  }

  /** Length of the run of \s characters at the start of s. */
  function SpaceRunLen(s: string): (n: nat)
    ensures n <= |s|
    ensures forall i :: 0 <= i < n ==> IsSpace(s[i])
    ensures n < |s| ==> !IsSpace(s[n])
  {
    if s == [] || !IsSpace(s[0]) then 0 else 1 + SpaceRunLen(s[1..])
  }

  /** The first position where pat starts in s, case ignored. */
  function FindNoCase(s: string, pat: string): (r: Option<nat>)
    ensures r.Some? ==> r.value + |pat| <= |s| && StartsNoCase(s[r.value..], pat)
    ensures r.Some? ==> forall j :: 0 <= j < r.value ==> !StartsNoCase(s[j..], pat)
    ensures r.None? ==> forall j :: 0 <= j <= |s| ==> !StartsNoCase(s[j..], pat)
    decreases |s|
  {
    if |s| < |pat| then None
    else if StartsNoCase(s, pat) then Some(0)
    else
      match FindNoCase(s[1..], pat)
      case None =>
        assert forall j :: 1 <= j <= |s| ==> s[1..][j - 1..] == s[j..];
        None
      case Some(k) =>
        assert forall j :: 1 <= j <= k + 1 ==> s[1..][j - 1..] == s[j..];
        Some(k + 1)
  }

  /** Length of the match of on\w+\s*= at the start of s, or 0. Backtracking
      adds nothing: \w+ and \s* stop at a character neither takes. */
  function HandlerMatchLen(s: string): (n: nat)
    ensures n <= |s|
    ensures n > 0 ==> StartsNoCase(s, "on") && n >= 4 && IsWordChar(s[2]) && s[n - 1] == '='
  {
    if !StartsNoCase(s, "on") then 0
    else
      var w := WordRunLen(s[2..]);
      var sp := SpaceRunLen(s[2 + w..]);
      if w > 0 && 2 + w + sp < |s| && s[2 + w + sp] == '=' then 3 + w + sp else 0
  }

  /** Length of the match of <script[^>]*>.*?</script> at the start of s, or
      0: up to the first '>' after "<script", then to the first "</script>"
      after that. */
  function ScriptMatchLen(s: string): (n: nat)
    ensures n <= |s|
    ensures n > 0 ==> StartsNoCase(s, "<script") && n >= 17 && StartsNoCase(s[n - 9..], "</script>")
  {
    if !StartsNoCase(s, "<script") then 0
    else
      match IndexOf(s[7..], '>')
      case None => 0
      case Some(g) =>
        match FindNoCase(s[8 + g..], "</script>")
        case None => 0
        case Some(k) =>
          assert s[8 + g + k..] == s[8 + g..][k..];
          8 + g + k + 9
  }

  /** Length of the match of p at the very start of s; 0 when p does not
      match there. */
  function MatchLen(p: ScriptPattern, s: string): (n: nat)
    ensures n <= |s|
    ensures n > 0 ==> StartsNoCase(s, Lead(p))
  {
    match p
    case JavascriptScheme => if StartsNoCase(s, "javascript:") then 11 else 0
    case EventHandler => HandlerMatchLen(s)
    case ScriptBlock => ScriptMatchLen(s)
  }

  /** re.sub(p, "", s): one left-to-right pass deleting every match of p
      that starts where the previous deletion ended. */
  function Sub(p: ScriptPattern, s: string): (r: string)
    ensures |r| <= |s|
    decreases |s|
  {
    if s == [] then []
    else
      var n := MatchLen(p, s);
      if n > 0 then Sub(p, s[n..]) else [s[0]] + Sub(p, s[1..])
  }

  /** p matches at no position of s. */
  predicate Free(p: ScriptPattern, s: string)
  {
    forall i :: 0 <= i < |s| ==> MatchLen(p, s[i..]) == 0
  }

  /** None of the three patterns occurs in s. */
  predicate ScriptFree(s: string)
  {
    Free(JavascriptScheme, s) && Free(EventHandler, s) && Free(ScriptBlock, s)
  }

  lemma FreeTail(p: ScriptPattern, s: string)
    requires s != [] && MatchLen(p, s) == 0
    ensures Free(p, s) <==> Free(p, s[1..])
  {
    if Free(p, s) {
      forall i | 0 <= i < |s| - 1
        ensures MatchLen(p, s[1..][i..]) == 0
      {
        assert s[1..][i..] == s[i + 1..];
      }
    }
    if Free(p, s[1..]) {
      forall i | 0 <= i < |s|
        ensures MatchLen(p, s[i..]) == 0
      {
        if i > 0 {
          assert s[i..] == s[1..][i - 1..];
        } else {
          assert s[i..] == s;
        }
      }
    }
  }

  /** A pass of Sub changes s exactly when p occurs in s, and then it
      makes s shorter. */
  lemma {:induction false} SubChangesIffMatch(p: ScriptPattern, s: string)
    ensures Free(p, s) <==> Sub(p, s) == s
    ensures Free(p, s) <==> |Sub(p, s)| == |s|
    decreases |s|
  {
    if s != [] {
      if MatchLen(p, s) > 0 {
        assert s[0..] == s;
      } else {
        var t := Sub(p, s[1..]);
        SubChangesIffMatch(p, s[1..]);
        FreeTail(p, s);
        assert ([s[0]] + t)[1..] == t;
        assert t == s[1..] ==> [s[0]] + t == s;
      }
    }
  }

  /** The three re.sub calls of sanitize_xss, one pass each, in order. */
  function XssPasses(s: string): (r: string)
    ensures |r| <= |s|
    ensures |r| == |s| <==> ScriptFree(s)
    ensures ScriptFree(s) ==> r == s
  {
    var a := Sub(JavascriptScheme, s);
    var b := Sub(EventHandler, a);
    SubChangesIffMatch(JavascriptScheme, s);
    SubChangesIffMatch(EventHandler, a);
    SubChangesIffMatch(ScriptBlock, b);
    Sub(ScriptBlock, b)
  }

  /** sanitize_xss as written: empty text stays empty; anything else goes
      through the cleaner (bleach.clean with no allowed tags) and then one
      pass of each removal. */
  function SanitizeXssAsWritten(text: string, clean: string -> string): (r: string)
    ensures text == [] ==> r == []
    ensures text != [] ==> |r| <= |clean(text)|
    ensures text != [] ==> (r == clean(text) <==> ScriptFree(clean(text)))
  {
    if text == [] then [] else XssPasses(clean(text))
  }

  /** Sub leaves a prefix alone when p matches at none of its positions. */
  lemma {:induction false} SubSkipsPrefix(p: ScriptPattern, a: string, b: string)
    requires forall i :: 0 <= i < |a| ==> MatchLen(p, (a + b)[i..]) == 0
    ensures Sub(p, a + b) == a + Sub(p, b)
    decreases |a|
  {
    if a != [] {
      var rest := a[1..] + b;
      ConsSplit(a, b);
      assert (a + b)[0..] == a + b;
      forall i | 0 <= i < |a| - 1
        ensures MatchLen(p, (a[1..] + b)[i..]) == 0
      {
        DropShift(a, b, i);
        assert MatchLen(p, (a + b)[i + 1..]) == 0;
      }
      SubSkipsPrefix(p, a[1..], b);
      SubKeepsHead(p, a[0], rest);
      ConsSplit(a, Sub(p, b));
    } else {
      assert a + b == b;
    }
  }

  lemma ConsSplit(a: string, s: string)
    requires a != []
    ensures [a[0]] + (a[1..] + s) == a + s
  {
    assert [a[0]] + a[1..] == a;
  }

  lemma DropShift(a: string, b: string, i: nat)
    requires i < |a| - 1
    ensures (a[1..] + b)[i..] == (a + b)[i + 1..]
  {
  }

  /** A character where p does not match is kept. */
  lemma SubKeepsHead(p: ScriptPattern, c: char, rest: string)
    requires MatchLen(p, [c] + rest) == 0
    ensures Sub(p, [c] + rest) == [c] + Sub(p, rest)
  {
    assert ([c] + rest)[0] == c && ([c] + rest)[1..] == rest;
  }

  /** A javascript: split by another javascript: survives the single pass:
      deleting the inner one joins the outer halves into a new one. */
  lemma XssOnePassLeavesJavascript(j: string, t: string, clean: string -> string)
    requires j == "javascript:" && t == j[..4] + j + j[4..]
    requires clean(t) == t
    ensures SanitizeXssAsWritten(t, clean) == j
    ensures !ScriptFree(SanitizeXssAsWritten(t, clean))
  {
    JavascriptPassJoins(j, t);
    JavascriptHasNoOtherPattern(j);
    SubChangesIffMatch(EventHandler, j);
    SubChangesIffMatch(ScriptBlock, j);
    assert XssPasses(t) == j;
    JavascriptMatches(j);
  }

  lemma JavascriptMatches(j: string)
    requires j == "javascript:"
    ensures !Free(JavascriptScheme, j)
  {
    assert j[0..] == j;
    forall i | 0 <= i < 11 ensures Lower(j[i]) == j[i] {
      assert !IsUpper(j[i]);
    }
  }

  /** The first re.sub of sanitize_xss on "java" + "javascript:" + "script:":
      the whole javascript: inside is deleted and the halves around it meet. */
  lemma JavascriptPassJoins(j: string, t: string)
    requires j == "javascript:" && t == j[..4] + j + j[4..]
    ensures Sub(JavascriptScheme, t) == j
  {
    var a, b := j[..4], j + j[4..];
    assert t == a + b;
    JavascriptPrefixSkipped(j, a, b);
    SubSkipsPrefix(JavascriptScheme, a, b);
    JavascriptDeleted(j, b);
    assert a + j[4..] == j;
  }

  /** No javascript: starts inside "java". */
  lemma JavascriptPrefixSkipped(j: string, a: string, b: string)
    requires j == "javascript:" && a == j[..4] && b == j + j[4..]
    ensures forall i :: 0 <= i < |a| ==> MatchLen(JavascriptScheme, (a + b)[i..]) == 0
  {
    forall i | 0 <= i < 4
      ensures MatchLen(JavascriptScheme, (a + b)[i..]) == 0
    {
      var s := (a + b)[i..];
      if i == 0 { assert s[4] == 'j'; }
      else if i == 1 { assert s[0] == 'a'; }
      else if i == 2 { assert s[0] == 'v'; }
      else { assert s[0] == 'a'; }
    }
  }

  /** The javascript: at the front is deleted and "script:" stays. */
  lemma JavascriptDeleted(j: string, b: string)
    requires j == "javascript:" && b == j + j[4..]
    ensures Sub(JavascriptScheme, b) == j[4..]
  {
    assert b[..11] == j && b[11..] == j[4..];
    assert StartsNoCase(b, j) by {
      forall i | 0 <= i < 11 ensures Lower(b[i]) == j[i] {
        assert b[i] == j[i] && !IsUpper(j[i]);
      }
    }
    SubChangesIffMatch(JavascriptScheme, j[4..]);
  }

  /** "javascript:" holds no event handler and no script block: it has no
      'o' and no '<'. */
  lemma JavascriptHasNoOtherPattern(j: string)
    requires j == "javascript:"
    ensures Free(EventHandler, j) && Free(ScriptBlock, j)
  {
    forall i | 0 <= i < |j|
      ensures MatchLen(EventHandler, j[i..]) == 0 && MatchLen(ScriptBlock, j[i..]) == 0
    {
      assert j[i..][0] == j[i];
      assert Lower(j[i]) != 'o' && Lower(j[i]) != '<';
    }
  }

  /** The removals repeated until none of the three patterns is left. */
  function Scrubbed(s: string): (r: string)
    ensures ScriptFree(r)
    ensures |r| <= |s|
    ensures r == s <==> ScriptFree(s)
    decreases |s|
  {
    var t := XssPasses(s);
    if |t| == |s| then s else Scrubbed(t)
  }

  /** sanitize_xss as evidently intended, used by SanitizeImageUrlCorrected:
      empty text stays empty; anything else goes through the cleaner and
      the removals until no javascript:, event handler or script block is
      left. */
  function SanitizeXss(text: string, clean: string -> string): (r: string)
    ensures text == [] ==> r == []
    ensures ScriptFree(r)
    ensures text != [] ==> |r| <= |clean(text)|
    ensures text != [] ==> (r == clean(text) <==> ScriptFree(clean(text)))
  {
    if text == [] then [] else Scrubbed(clean(text))
  }

  /** The intended and the written sanitize_xss agree exactly when the
      single pass already leaves none of the patterns. */
  lemma {:induction false} XssAgreesWhenOnePassSuffices(text: string, clean: string -> string)
    ensures SanitizeXss(text, clean) == SanitizeXssAsWritten(text, clean)
            <==> ScriptFree(SanitizeXssAsWritten(text, clean))
  {
    if text != [] {
      var c := clean(text);
      var t := XssPasses(c);
      if ScriptFree(t) && |t| != |c| {
        assert Scrubbed(c) == Scrubbed(t);
      }
    }
  }

  // ---------------------------------------------------------------
  // sanitize_product_name
  // ---------------------------------------------------------------

  /** strip_html_tags: the tag stripper, then whitespace collapsed. */
  function StripHtmlTags(html: string, stripTags: string -> string): (r: string)
    ensures html == [] ==> r == []
    ensures SingleSpaced(r)
  {
    if html == [] then [] else CollapseSpaces(stripTags(html))
  }

  /** The class [!@#$%^&*()_+=\[\]{}|\\:";<>?,./] of sanitize_product_name. */
  predicate IsPunct(c: char)
  {
    c == '!' || c == '@' || c == '#' || c == '$' || c == '%' || c == '^' || c == '&'
    || c == '*' || c == '(' || c == ')' || c == '_' || c == '+' || c == '=' || c == '['
    || c == ']' || c == '{' || c == '}' || c == '|' || c == '\\' || c == ':' || c == '"'
    || c == ';' || c == '<' || c == '>' || c == '?' || c == ',' || c == '.' || c == '/'
  }

  /** Length of the run of punctuation at the start of s. */
  function PunctRunLen(s: string): (n: nat)
    ensures n <= |s|
    ensures forall i :: 0 <= i < n ==> IsPunct(s[i])
    ensures n < |s| ==> !IsPunct(s[n])
  {
    if s == [] || !IsPunct(s[0]) then 0 else 1 + PunctRunLen(s[1..])
  }

  /** No three punctuation characters in a row. */
  predicate NoLongPunctRun(s: string)
  {
    forall i :: 0 <= i < |s| - 2 ==> !(IsPunct(s[i]) && IsPunct(s[i + 1]) && IsPunct(s[i + 2]))
  }

  /** re.sub of [punct]{3,} by "": every maximal run of three or more
      punctuation characters is deleted, shorter runs stay. */
  function RemovePunctRuns(s: string): (r: string)
    ensures |r| <= |s|
    ensures forall c :: c in r ==> c in s
    ensures NoLongPunctRun(r)
    ensures s != [] && !IsPunct(s[0]) ==> r != [] && r[0] == s[0]
    ensures PunctRunLen(r) < 3
    decreases |s|
  {
    if s == [] then []
    else
      var n := PunctRunLen(s);
      var rest := s[n..];
      if n == 0 then
        var t := RemovePunctRuns(s[1..]);
        KeepPlain(s, t);
        [s[0]] + t
      else
        var t := RemovePunctRuns(rest);
        assert forall c :: c in rest ==> c in s;
        if n >= 3 then
          t
        else
          assert rest == [] || t[0] == rest[0];
          KeepShortRun(s, n, t);
          s[..n] + t
  }

  /** A character that is not punctuation, put before a result of
      RemovePunctRuns of the rest of s. */
  lemma KeepPlain(s: string, t: string)
    requires s != [] && !IsPunct(s[0])
    requires |t| <= |s| - 1 && (forall c :: c in t ==> c in s[1..]) && NoLongPunctRun(t)
    ensures var r := [s[0]] + t;
            && (forall c :: c in r ==> c in s) && NoLongPunctRun(r) && PunctRunLen(r) == 0
  {
    var r := [s[0]] + t;
    assert forall i :: 1 <= i < |r| ==> r[i] == t[i - 1];
    assert forall c :: c in s[1..] ==> c in s;
  }

  /** A run of one or two punctuation characters, put before a result of
      RemovePunctRuns of what follows the run. */
  lemma KeepShortRun(s: string, n: nat, t: string)
    requires 0 < n < 3 && n <= |s| && forall i :: 0 <= i < n ==> IsPunct(s[i])
    requires (forall c :: c in t ==> c in s[n..]) && NoLongPunctRun(t)
    requires t == [] || !IsPunct(t[0])
    ensures var r := s[..n] + t;
            && (forall c :: c in r ==> c in s) && NoLongPunctRun(r) && PunctRunLen(r) == n
  {
    var r := s[..n] + t;
    assert forall c :: c in s[..n] ==> c in s;
    assert forall c :: c in s[n..] ==> c in s;
    forall i | 0 <= i < |r| - 2
      ensures !(IsPunct(r[i]) && IsPunct(r[i + 1]) && IsPunct(r[i + 2]))
    {
      if i >= n {
        assert r[i] == t[i - n] && r[i + 1] == t[i - n + 1] && r[i + 2] == t[i - n + 2];
      } else if i + 1 == n {
        assert r[i + 1] == t[0];
      } else {
        assert r[i + 2] == t[0];
      }
    }
    PunctRunOfPrefix(s[..n], t);
  }

  lemma {:induction false} PunctRunOfPrefix(p: string, t: string)
    requires forall i :: 0 <= i < |p| ==> IsPunct(p[i])
    requires t == [] || !IsPunct(t[0])
    ensures PunctRunLen(p + t) == |p|
    decreases |p|
  {
    if p != [] {
      assert (p + t)[1..] == p[1..] + t;
      PunctRunOfPrefix(p[1..], t);
    } else {
      assert p + t == t;
    }
  }

  /** The same deletion read left to right one character at a time:
      punctuation is held back in run until a character that is not
      punctuation, or the end, shows how long the run is. */
  function ScanPunct(s: string, run: string): string
    decreases |s|
  {
    if s == [] then Flushed(run)
    else if IsPunct(s[0]) then ScanPunct(s[1..], run + [s[0]])
    else Flushed(run) + [s[0]] + ScanPunct(s[1..], [])
  }

  /** A held-back run: dropped when three or more long, kept otherwise. */
  function Flushed(run: string): string
  {
    if |run| >= 3 then [] else run
  }

  /** Scanning with a run held back is scanning the rest of that run, then
      what follows it with nothing held back. */
  lemma {:induction false} ScanHeldRun(s: string, run: string)
    ensures ScanPunct(s, run) == Flushed(run + s[..PunctRunLen(s)]) + ScanPunct(s[PunctRunLen(s)..], [])
    decreases |s|
  {
    var n := PunctRunLen(s);
    assert run + s[..0] == run;
    if s != [] && IsPunct(s[0]) {
      ScanHeldRun(s[1..], run + [s[0]]);
      assert (run + [s[0]]) + s[1..][..n - 1] == run + s[..n];
      assert s[1..][n - 1..] == s[n..];
    }
  }

  /** RemovePunctRuns keeps exactly what the character scanner keeps: every
      character that is not punctuation and every run shorter than three,
      in order. */
  lemma {:induction false} RemovePunctRunsScans(s: string)
    ensures RemovePunctRuns(s) == ScanPunct(s, [])
    decreases |s|
  {
    if s != [] {
      var n := PunctRunLen(s);
      if n == 0 {
        assert RemovePunctRuns(s) == [s[0]] + RemovePunctRuns(s[1..]);
        RemovePunctRunsScans(s[1..]);
      } else {
        assert RemovePunctRuns(s) == Flushed(s[..n]) + RemovePunctRuns(s[n..]);
        ScanHeldRun(s, []);
        assert [] + s[..n] == s[..n];
        RemovePunctRunsScans(s[n..]);
      }
    }
  }

  /** Python's s[:n] + "..." when s is longer than n, else s. */
  function Truncated(s: string, n: nat): (r: string)
    ensures |s| <= n ==> r == s
    ensures |s| > n ==> |r| == n + 3 && r[..n] == s[..n] && r[n..] == "..."
  {
    if |s| > n then s[..n] + "..." else s
  }

  /** The steps both copies of sanitize_product_name apply after HTML
      cleaning: long punctuation runs removed, cut to 500 characters plus
      "...", then stripped. */
  function TrimProductName(x: string): (r: string)
    ensures r == Strip(Truncated(ScanPunct(x, []), MaxProductNameLength))
    ensures x == [] ==> r == []
    ensures |r| <= MaxProductNameLength + 3
    ensures r == [] || (!IsSpace(r[0]) && !IsSpace(r[|r| - 1]))
  {
    RemovePunctRunsScans(x);
    Strip(Truncated(RemovePunctRuns(x), MaxProductNameLength))
  }

  /** sanitize_product_name of scraper/sanitization.py: tags stripped, one
      pass of sanitize_xss as written, then trimmed. */
  function SanitizeProductName(name: string, stripTags: string -> string, clean: string -> string): (r: string)
    ensures r == Strip(Truncated(ScanPunct(SanitizeXssAsWritten(StripHtmlTags(name, stripTags), clean), []), MaxProductNameLength))
    ensures name == [] ==> r == []
    ensures |r| <= MaxProductNameLength + 3
    ensures r == [] || (!IsSpace(r[0]) && !IsSpace(r[|r| - 1]))
  {
    var x := SanitizeXssAsWritten(StripHtmlTags(name, stripTags), clean);
    var r := TrimProductName(x);
    assert r == Strip(Truncated(ScanPunct(x, []), MaxProductNameLength));
    r
  }

  /** A prefix without punctuation passes the scanner unchanged. */
  lemma {:induction false} ScanPlainPrefix(a: string, b: string)
    requires forall i :: 0 <= i < |a| ==> !IsPunct(a[i])
    ensures ScanPunct(a + b, []) == a + ScanPunct(b, [])
    decreases |a|
  {
    if a != [] {
      assert (a + b)[0] == a[0] && (a + b)[1..] == a[1..] + b;
      ScanPlainPrefix(a[1..], b);
      assert [a[0]] + a[1..] == a;
    } else {
      assert a + b == b;
    }
  }

  /** The single sanitize_xss pass reaches sanitize_product_name: the
      written function turns "java" + "javascript:" + "script:" into
      "javascript:", which still holds a script pattern. */
  lemma ProductNameKeepsJavascript(j: string, t: string, stripTags: string -> string, clean: string -> string)
    requires j == "javascript:" && t == j[..4] + j + j[4..]
    requires StripHtmlTags(t, stripTags) == t && clean(t) == t
    ensures SanitizeProductName(t, stripTags, clean) == j
    ensures !ScriptFree(SanitizeProductName(t, stripTags, clean))
  {
    XssOnePassLeavesJavascript(j, t, clean);
    JavascriptTrimmed(j);
  }

  /** "javascript:" holds no punctuation run, fits the length limit and
      has no surrounding whitespace, so the trimming keeps it whole. */
  lemma JavascriptTrimmed(j: string)
    requires j == "javascript:"
    ensures Strip(Truncated(ScanPunct(j, []), MaxProductNameLength)) == j
  {
    var a := j[..10];
    forall i | 0 <= i < |a| ensures !IsPunct(a[i]) {
      assert IsLower(a[i]);
    }
    assert a + [':'] == j;
    ScanPlainPrefix(a, [':']);
    assert ScanPunct([':'], []) == [':'];
    assert j[0] == 'j' && j[|j| - 1] == ':';
    assert !IsSpace(j[0]) && !IsSpace(j[|j| - 1]);
    StripKeeps(j);
  }

  /** sanitize_html of core/security.py: empty stays empty; otherwise the
      bleach cleaner, whitespace collapsed, cut to MAX_TEXT_LENGTH plus "...". */
  function CoreSanitizeHtml(html: string, bleach: string -> string): (r: string)
    ensures html == [] ==> r == []
    ensures html != [] ==> r == Truncated(CollapseSpaces(bleach(html)), MaxTextLength)
    ensures |r| <= MaxTextLength + 3
    ensures |r| <= MaxTextLength ==> SingleSpaced(r)
  {
    if html == [] then []
    else
      var c := CollapseSpaces(bleach(html));
      if |c| > MaxTextLength then c[..MaxTextLength] + "..." else c
  }

  /** sanitize_product_name of core/security.py, used by the extraction
      strategies: sanitize_html first, then the shared trimming. */
  function CoreSanitizeProductName(name: string, bleach: string -> string): (r: string)
    ensures r == Strip(Truncated(ScanPunct(CoreSanitizeHtml(name, bleach), []), MaxProductNameLength))
    ensures name == [] ==> r == []
    ensures |r| <= MaxProductNameLength + 3
    ensures r == [] || (!IsSpace(r[0]) && !IsSpace(r[|r| - 1]))
  {
    var x := CoreSanitizeHtml(name, bleach);
    var r := TrimProductName(x);
    assert r == Strip(Truncated(ScanPunct(x, []), MaxProductNameLength));
    r
  }

  // ---------------------------------------------------------------
  // sanitize_image_url
  // ---------------------------------------------------------------

  /** The pattern ^https?://[a-zA-Z0-9]. */
  predicate HasHttpAlnumPrefix(u: string)
  {
    (|u| > 7 && u[..7] == "http://" && IsAlnum(u[7]))
    || (|u| > 8 && u[..8] == "https://" && IsAlnum(u[8]))
  }

  predicate StartsWithHttp(u: string)
  {
    "http://" <= u || "https://" <= u
  }

  /** The URL after strip and the protocol-relative fix-up. */
  function AbsoluteImageUrl(url: string): (u: string)
    ensures "//" <= Strip(url) ==> u == "https:" + Strip(url)
    ensures !("//" <= Strip(url)) ==> u == Strip(url)
  {
    var s := Strip(url);
    if "//" <= s then "https:" + s else s
  }

  /** sanitize_image_url, with the single sanitize_xss pass as written;
      None stands for Python's None. */
  function SanitizeImageUrl(url: Option<string>, clean: string -> string): (r: Option<string>)
    ensures url.None? || url.value == [] ==> r.None?
    ensures r.Some? ==> HasHttpAlnumPrefix(r.value)
    ensures url.Some? && !StartsWithHttp(AbsoluteImageUrl(url.value)) ==> r.None?
    ensures r.Some? ==> r.value == SanitizeXssAsWritten(AbsoluteImageUrl(url.value), clean)
  {
    if url.None? || url.value == [] then None
    else
      var u := AbsoluteImageUrl(url.value);
      if !StartsWithHttp(u) then None
      else
        var v := SanitizeXssAsWritten(u, clean);
        if HasHttpAlnumPrefix(v) then Some(v) else None
  }

  /** sanitize_image_url with the intended sanitize_xss: a URL it returns
      holds no script pattern. */
  function SanitizeImageUrlCorrected(url: Option<string>, clean: string -> string): (r: Option<string>)
    ensures url.None? || url.value == [] ==> r.None?
    ensures r.Some? ==> HasHttpAlnumPrefix(r.value) && ScriptFree(r.value)
    ensures url.Some? && !StartsWithHttp(AbsoluteImageUrl(url.value)) ==> r.None?
    ensures r.Some? ==> r.value == SanitizeXss(AbsoluteImageUrl(url.value), clean)
  {
    if url.None? || url.value == [] then None
    else
      var u := AbsoluteImageUrl(url.value);
      if !StartsWithHttp(u) then None
      else
        var v := SanitizeXss(u, clean);
        if HasHttpAlnumPrefix(v) then Some(v) else None
  }

  /** The written and the intended sanitize_image_url give the same answer
      whenever the single pass leaves no script pattern, and a URL the
      written one returns with a pattern left in it is never the intended
      answer. */
  lemma ImageUrlAgreesWhenOnePassSuffices(url: string, clean: string -> string)
    ensures ScriptFree(SanitizeXssAsWritten(AbsoluteImageUrl(url), clean)) ==>
              SanitizeImageUrl(Some(url), clean) == SanitizeImageUrlCorrected(Some(url), clean)
    ensures SanitizeImageUrl(Some(url), clean).Some? && !ScriptFree(SanitizeImageUrl(Some(url), clean).value) ==>
              SanitizeImageUrlCorrected(Some(url), clean) != SanitizeImageUrl(Some(url), clean)
  {
    XssAgreesWhenOnePassSuffices(AbsoluteImageUrl(url), clean);
  }

  /** A protocol-relative "//host..." image URL becomes "https://host..." when
      the cleaner leaves it alone and it holds no script pattern. */
  lemma ProtocolRelativeImageUrl(h: string, clean: string -> string)
    requires h != [] && IsAlnum(h[0]) && !IsSpace(h[|h| - 1])
    requires clean("https://" + h) == "https://" + h && ScriptFree("https://" + h)
    ensures SanitizeImageUrl(Some("//" + h), clean) == Some("https://" + h)
  {
    var s := "//" + h;
    assert s[0] == '/' && s[|s| - 1] == h[|h| - 1];
    StripKeeps(s);
    var u := "https://" + h;
    assert "https:" + s == u;
    assert u[..8] == "https://" && u[8] == h[0];
  }

  // ---------------------------------------------------------------
  // sanitize_scraped_content
  // ---------------------------------------------------------------

  /** The Python values a scraped-content dict holds. */
  datatype Val = Null | Bool(b: bool) | Int(i: int) | Float(f: real) | Str(s: string)

  /** Python truthiness. */
  predicate Truthy(v: Val)
  {
    match v
    case Null => false
    case Bool(b) => b
    case Int(i) => i != 0
    case Float(f) => f != 0.0
    case Str(s) => s != []
  }

  /** Python's str(v); the text of a float is a parameter (repr is not modelled). */
  function Show(v: Val, floatText: real -> string): string
  {
    match v
    case Null => "None"
    case Bool(b) => if b then "True" else "False"
    case Int(i) => if i < 0 then "-" + NatToString(-i) else NatToString(i)
    case Float(f) => floatText(f)
    case Str(s) => s
  }

  function OptionalPrice(p: Option<real>): (v: Val)
    ensures v.Null? || v.Float?
  {
    match p
    case None => Null
    case Some(x) => Float(x)
  }

  function OptionalText(s: Option<string>): (v: Val)
    ensures v.Null? || v.Str?
  {
    match s
    case None => Null
    case Some(x) => Str(x)
  }

  /** The outside pieces sanitize_scraped_content relies on. */
  datatype Cleaners = Cleaners(stripTags: string -> string, clean: string -> string, floatText: real -> string)

  const OutputKeys: set<string> :=
    {"name", "price", "original_price", "image_url", "brand", "upc", "currency", "in_stock"}

  /** The inputs on which sanitize_scraped_content raises: a truthy non-string
      name (bleach rejects it), a truthy non-string brand (re.sub rejects it),
      or a truthy non-string image_url (it has no strip method). */
  predicate Raises(content: map<string, Val>)
  {
    ("name" in content && Truthy(content["name"]) && !content["name"].Str?)
    || ("brand" in content && Truthy(content["brand"]) && !content["brand"].Str?)
    || ("image_url" in content && Truthy(content["image_url"]) && !content["image_url"].Str?)
  }

  /** A price field: strings are normalised, other values pass through. */
  function PriceField(v: Val): (r: Val)
    ensures v.Str? ==> r.Null? || (r.Float? && Security.ValidPrice(r.f))
    ensures v.Str? ==> (r.Null? <==> Security.NormalizePrice(v.s).None?)
    ensures !v.Str? ==> r == v
  {
    if v.Str? then OptionalPrice(Security.NormalizePrice(v.s)) else v
  }

  /** The upc field: only ASCII letters and digits of str(upc), at most 50, None if nothing is left. */
  function UpcField(v: Val, floatText: real -> string): (r: Val)
    ensures r.Null? || r.Str?
    ensures r.Str? ==> 0 < |r.s| <= MaxUpcLength && forall c :: c in r.s ==> IsAlnum(c)
    ensures r.Null? <==> forall c :: c in Show(v, floatText) ==> !IsAlnum(c)
  {
    var u := Filter(Show(v, floatText), IsAlnum);
    if u == [] then Null
    else
      var t := Take(u, MaxUpcLength);
      assert t[0] == u[0] && u[0] in u;
      assert forall c :: c in t ==> c in u;
      Str(t)
  }

  /** What the output dict holds at key k: None when the key is not set. */
  function OutField(content: map<string, Val>, k: string, env: Cleaners): (r: Option<Val>)
    requires !Raises(content)
    ensures r.Some? ==> k in OutputKeys
    ensures k in {"price", "original_price", "image_url", "currency", "in_stock"} ==> (r.Some? <==> k in content)
    ensures k in {"name", "brand", "upc"} ==> (r.Some? <==> k in content && Truthy(content[k]))
    ensures k in {"currency", "in_stock"} && r.Some? ==> r.value == content[k]
    ensures k in {"price", "original_price"} && r.Some? ==>
              if content[k].Str? then r.value.Null? || (r.value.Float? && Security.ValidPrice(r.value.f))
              else r.value == content[k]
    ensures k == "name" && r.Some? ==> r.value.Str? && |r.value.s| <= MaxProductNameLength + 3
    ensures k == "brand" && r.Some? ==>
              r.value.Str? && |r.value.s| <= MaxBrandLength && forall c :: c in r.value.s ==> !IsControl(c)
    ensures k == "upc" && r.Some? ==>
              r.value.Null? || (r.value.Str? && 0 < |r.value.s| <= MaxUpcLength && forall c :: c in r.value.s ==> IsAlnum(c))
    ensures k == "image_url" && r.Some? ==>
              r.value.Null? || (r.value.Str? && HasHttpAlnumPrefix(r.value.s))
  {
    if k !in content then None
    else
      var v := content[k];
      if k == "name" then
        if Truthy(v) then Some(Str(SanitizeProductName(v.s, env.stripTags, env.clean))) else None
      else if k == "price" || k == "original_price" then Some(PriceField(v))
      else if k == "image_url" then
        Some(if v.Str? then OptionalText(SanitizeImageUrl(Some(v.s), env.clean)) else Null)
      else if k == "brand" then
        if Truthy(v) then
          var b := Take(SanitizeText(v.s), MaxBrandLength);
          assert forall c :: c in b ==> c in SanitizeText(v.s);
          Some(Str(b))
        else None
      else if k == "upc" then
        if Truthy(v) then Some(UpcField(v, env.floatText)) else None
      else if k == "currency" || k == "in_stock" then Some(v)
      else None
  }

  /** sanitize_scraped_content: None when the Python function raises; otherwise
      exactly the keys OutField sets, with its values. */
  function SanitizeScrapedContent(content: map<string, Val>, env: Cleaners): (r: Option<map<string, Val>>)
    ensures r.None? <==> Raises(content)
    ensures r.Some? ==> r.value.Keys <= OutputKeys
    ensures r.Some? ==> forall k :: k in r.value <==> OutField(content, k, env).Some?
    ensures r.Some? ==> forall k :: k in r.value ==> r.value[k] == OutField(content, k, env).value
  {
    if Raises(content) then None
    else Some(map k | k in OutputKeys && OutField(content, k, env).Some? :: OutField(content, k, env).value)
  }
}
