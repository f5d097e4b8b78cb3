/** Shared value types and the small pieces of Python string behaviour that
    the modelled code relies on (str.strip, str.split, str.lower, `in`). */
module Common {

  datatype Option<+T> = None | Some(value: T)

  datatype Result<+T, +E> = Ok(value: T) | Err(error: E)

  // ---------------------------------------------------------------
  // Characters
  // ---------------------------------------------------------------

  /** Python's str.isspace for a single character. */
  predicate IsSpace(c: char)
  {
    c == ' ' || ('\t' <= c <= '\r') || ('\U{1c}' <= c <= '\U{1f}')
    || c == '\U{85}' || c == '\U{a0}' || c == '\U{1680}'
    || ('\U{2000}' <= c <= '\U{200a}') || c == '\U{2028}' || c == '\U{2029}'
    || c == '\U{202f}' || c == '\U{205f}' || c == '\U{3000}'
  }

  predicate IsDigit(c: char) { '0' <= c <= '9' }
  predicate IsUpper(c: char) { 'A' <= c <= 'Z' }
  predicate IsLower(c: char) { 'a' <= c <= 'z' }
  predicate IsAlpha(c: char) { IsUpper(c) || IsLower(c) }
  predicate IsAlnum(c: char) { IsAlpha(c) || IsDigit(c) }

  function Lower(c: char): (r: char)
    ensures !IsUpper(r)
    ensures !IsUpper(c) ==> r == c
  {
    if IsUpper(c) then (c as int + 32) as char else c
  }

  function LowerStr(s: string): (r: string)
    ensures |r| == |s|
    ensures forall i :: 0 <= i < |s| ==> r[i] == Lower(s[i])
  {
    if s == [] then [] else [Lower(s[0])] + LowerStr(s[1..])
  }

  function DigitValue(c: char): (r: nat)
    requires IsDigit(c)
    ensures r < 10
  {
    c as int - '0' as int
  }

  // ---------------------------------------------------------------
  // Searching
  // ---------------------------------------------------------------

  /** Python's `sub in s`. */
  predicate Contains(s: string, sub: string)
    decreases |s|
  {
    sub <= s || (|s| > 0 && Contains(s[1..], sub))
  }

  /** A text contains every piece it is assembled from. */
  lemma {:induction false} ContainsMiddle(p: string, sub: string, q: string)
    ensures Contains(p + sub + q, sub)
    decreases |p|
  {
    if p == [] {
      assert sub <= p + sub + q;
    } else {
      ContainsMiddle(p[1..], sub, q);
      assert (p + sub + q)[1..] == p[1..] + sub + q;
    }
  }

  predicate ContainsChar(s: string, c: char)
  {
    c in s
  }

  /** Python's s.find(c): the first index of c, when there is one. */
  function IndexOf(s: string, c: char): (r: Option<nat>)
    ensures r.None? <==> c !in s
    ensures r.Some? ==> r.value < |s| && s[r.value] == c && c !in s[..r.value]
  {
    if s == [] then None
    else if s[0] == c then Some(0)
    else match IndexOf(s[1..], c)
      case None => None
      case Some(i) =>
        assert s[1..][..i] == s[1..i + 1];
        Some(i + 1)
  }

  /** Python's s.rfind(c). */
  function LastIndexOf(s: string, c: char): (r: Option<nat>)
    ensures r.None? <==> c !in s
    ensures r.Some? ==> r.value < |s| && s[r.value] == c && c !in s[r.value + 1..]
  {
    if s == [] then None
    else if s[|s| - 1] == c then Some(|s| - 1)
    else match LastIndexOf(s[..|s| - 1], c)
      case None => None
      case Some(i) =>
        assert s[i + 1..] == s[..|s| - 1][i + 1..] + [s[|s| - 1]];
        Some(i)
  }

  /** Python's s.count(c) for a single character. */
  function Count(s: string, c: char): (r: nat)
    ensures r <= |s|
    ensures r == 0 <==> c !in s
  {
    if s == [] then 0 else (if s[0] == c then 1 else 0) + Count(s[1..], c)
  }

  /** Python's s.find(sub): the first index at which sub occurs. */
  function Find(s: string, sub: string): (r: Option<nat>)
    ensures r.None? <==> !Contains(s, sub)
    ensures r.Some? ==> r.value + |sub| <= |s| && sub <= s[r.value..]
    ensures r.Some? ==> forall j :: 0 <= j < r.value ==> !(sub <= s[j..])
    decreases |s|
  {
    if sub <= s then Some(0)
    else if |s| == 0 then None
    else match Find(s[1..], sub)
      case None => None
      case Some(i) =>
        assert forall j :: 1 <= j <= |s| ==> s[1..][j - 1..] == s[j..];
        Some(i + 1)
  }

  /** Python's s.find(sub, start) for a start inside s. */
  function FindFrom(s: string, sub: string, start: nat): (r: Option<nat>)
    requires start <= |s|
    ensures r.Some? ==> start <= r.value && r.value + |sub| <= |s| && sub <= s[r.value..]
    ensures r.None? <==> !Contains(s[start..], sub)
  {
    match Find(s[start..], sub)
    case None => None
    case Some(i) =>
      assert s[start..][i..] == s[start + i..];
      Some(start + i)
  }

  /** Python's s[a:b], negative bounds counting from the end. */
  function PySlice(s: string, a: int, b: int): (r: string)
    ensures 0 <= a <= b <= |s| ==> r == s[a..b]
    ensures |r| <= |s|
  {
    var lo := if a < 0 then Max(0, |s| + a) else Min(a, |s|);
    var hi := if b < 0 then Max(0, |s| + b) else Min(b, |s|);
    if lo >= hi then [] else s[lo..hi]
  }

  /** The text before the first c, or all of s (Python's s.split(c)[0]). */
  function Before(s: string, c: char): (r: string)
    ensures r <= s && c !in r
    ensures c in s ==> |r| < |s| && s[|r|] == c
    ensures c !in s ==> r == s
  {
    match IndexOf(s, c)
    case None => s
    case Some(i) => s[..i]
  }

  /** The text after the first c (Python's s.split(c, 1)[1]). */
  function After(s: string, c: char): (r: string)
    requires c in s
    ensures |r| < |s|
    ensures s == Before(s, c) + [c] + r
  {
    var i := IndexOf(s, c).value;
    assert s == s[..i] + [c] + s[i + 1..];
    s[i + 1..]
  }

  /** Python's s.split(c) for a one-character separator. */
  function SplitOn(s: string, c: char): (parts: seq<string>)
    ensures |parts| >= 1
    ensures forall i :: 0 <= i < |parts| ==> c !in parts[i]
    decreases |s|
  {
    if c !in s then [s] else [Before(s, c)] + SplitOn(After(s, c), c)
  }

  /** When c does not occur in a, the text before the first c of a + [c] + b is a. */
  lemma BeforeFirst(a: string, c: char, b: string)
    requires c !in a
    ensures Before(a + [c] + b, c) == a && After(a + [c] + b, c) == b
  {
    var s := a + [c] + b;
    assert s[|a|] == c;
    assert s[..|a|] == a;
    assert IndexOf(s, c).value == |a|;
  }

  lemma FilterKeepsAll(s: string, keep: char -> bool)
    requires forall c :: c in s ==> keep(c)
    ensures Filter(s, keep) == s
  {
    if s != [] {
      assert forall c :: c in s[1..] ==> c in s;
      FilterKeepsAll(s[1..], keep);
    }
  }

  function Filter(s: string, keep: char -> bool): (r: string)
    ensures |r| <= |s|
    ensures forall c :: c in r ==> c in s && keep(c)
    ensures forall c :: c in s && keep(c) ==> c in r
  {
    if s == [] then [] else (if keep(s[0]) then [s[0]] else []) + Filter(s[1..], keep)
  }

  // ---------------------------------------------------------------
  // Whitespace
  // ---------------------------------------------------------------

  function LStrip(s: string): (r: string)
    ensures |r| <= |s| && r == s[|s| - |r|..]
    ensures r == [] || !IsSpace(r[0])
    ensures forall i :: 0 <= i < |s| - |r| ==> IsSpace(s[i])
  {
    if s != [] && IsSpace(s[0]) then LStrip(s[1..]) else s
  }

  function RStrip(s: string): (r: string)
    ensures |r| <= |s| && r == s[..|r|]
    ensures r == [] || !IsSpace(r[|r| - 1])
  {
    if s != [] && IsSpace(s[|s| - 1]) then RStrip(s[..|s| - 1]) else s
  }

  /** Python's str.strip(). */
  function Strip(s: string): (r: string)
    ensures |r| <= |s|
    ensures r == [] || (!IsSpace(r[0]) && !IsSpace(r[|r| - 1]))
    ensures (forall i :: 0 <= i < |s| ==> IsSpace(s[i])) <==> r == []
  {
    var l := LStrip(s);
    var r := RStrip(l);
    assert r == [] ==> forall i :: 0 <= i < |s| ==> IsSpace(s[i]) by {
      if r == [] {
        assert l == [] || !IsSpace(l[0]) by { }
        assert l == [] by {
          if l != [] { assert RStrip(l) != [] by { RStripKeepsNonSpace(l); } }
        }
      }
    }
    r
  }

  /** Text with no surrounding whitespace is its own strip. */
  lemma StripKeeps(s: string)
    requires s != [] && !IsSpace(s[0]) && !IsSpace(s[|s| - 1])
    ensures Strip(s) == s
  {
    assert LStrip(s) == s;
    assert RStrip(s) == s;
  }

  lemma RStripKeepsNonSpace(s: string)
    requires s != [] && !IsSpace(s[0])
    ensures RStrip(s) != []
  {
    if IsSpace(s[|s| - 1]) {
      RStripKeepsNonSpace(s[..|s| - 1]);
    }
  }

  /** A non-empty run of non-space characters. */
  predicate IsWord(w: string)
  {
    w != [] && forall c :: c in w ==> !IsSpace(c)
  }

  /** Python's str.split() with no separator: the maximal runs of non-space
      characters, in order. */
  function Words(s: string): (ws: seq<string>)
    ensures forall i :: 0 <= i < |ws| ==> IsWord(ws[i])
    ensures forall i, c :: 0 <= i < |ws| && c in ws[i] ==> c in s
    ensures s != [] && !IsSpace(s[0]) ==> ws != [] && ws[0] != [] && ws[0][0] == s[0]
    ensures ws == [] <==> forall i :: 0 <= i < |s| ==> IsSpace(s[i])
  {
    if s == [] then []
    else
      var ws := Words(s[1..]);
      assert forall c :: c in s[1..] ==> c in s;
      if IsSpace(s[0]) then ws
      else if |s| > 1 && !IsSpace(s[1]) then
        assert forall c :: c in [s[0]] + ws[0] ==> c in s;
        [[s[0]] + ws[0]] + ws[1..]
      else
        [[s[0]]] + ws
  }

  /** A single word splits into itself. */
  lemma {:induction false} WordsOfWord(w: string)
    requires IsWord(w)
    ensures Words(w) == [w]
    decreases |w|
  {
    assert w[0] in w;
    if |w| > 1 {
      assert w[1] in w;
      WordsOfWord(w[1..]);
      assert [w[0]] + w[1..] == w;
    } else {
      assert w == [w[0]] && w[1..] == [];
    }
  }

  /** A word followed by a space is split off as the first field. */
  lemma {:induction false} WordsOfWordThen(w: string, rest: string)
    requires IsWord(w)
    ensures Words(w + " " + rest) == [w] + Words(rest)
    decreases |w|
  {
    var s := w + " " + rest;
    assert s[0] == w[0] && w[0] in w;
    if |w| == 1 {
      assert s[1..] == " " + rest;
      assert (" " + rest)[1..] == rest;
      assert IsSpace(s[1]);
      assert Words(s[1..]) == Words(rest);
      assert w == [s[0]];
    } else {
      assert w[1] in w;
      WordsOfWordThen(w[1..], rest);
      assert s[1..] == w[1..] + " " + rest;
      assert [w[0]] + w[1..] == w;
    }
  }

  /** Every part shows up in the joined text. */
  lemma {:induction false} JoinContains(parts: seq<string>, sep: string, i: nat)
    requires i < |parts|
    ensures Contains(Join(parts, sep), parts[i])
    decreases |parts|
  {
    if |parts| == 1 {
      ContainsMiddle([], parts[0], []);
      assert [] + parts[0] + [] == parts[0];
    } else if i == 0 {
      ContainsMiddle([], parts[0], sep + Join(parts[1..], sep));
      assert [] + parts[0] + (sep + Join(parts[1..], sep)) == Join(parts, sep);
    } else {
      JoinContains(parts[1..], sep, i - 1);
      ContainsSuffix(parts[0] + sep, Join(parts[1..], sep), parts[i]);
    }
  }

  /** A text contained in a suffix is contained in the whole. */
  lemma {:induction false} ContainsSuffix(p: string, q: string, sub: string)
    requires Contains(q, sub)
    ensures Contains(p + q, sub)
    decreases |p|
  {
    if p == [] {
      assert p + q == q;
    } else {
      ContainsSuffix(p[1..], q, sub);
      assert (p + q)[1..] == p[1..] + q;
    }
  }

  /** Python's sep.join(parts). */
  function Join(parts: seq<string>, sep: string): (r: string)
  {
    if parts == [] then []
    else if |parts| == 1 then parts[0]
    else parts[0] + sep + Join(parts[1..], sep)
  }

  /** Each part preceded by the separator, concatenated. */
  function Prefixed(parts: seq<string>, sep: string): string
  {
    if parts == [] then [] else sep + parts[0] + Prefixed(parts[1..], sep)
  }

  /** Joining is the first part followed by the rest, each after a separator. */
  lemma {:induction false} JoinCons(a: string, rest: seq<string>, sep: string)
    ensures Join([a] + rest, sep) == a + Prefixed(rest, sep)
    decreases |rest|
  {
    if rest != [] {
      JoinCons(rest[0], rest[1..], sep);
      assert [rest[0]] + rest[1..] == rest;
      assert ([a] + rest)[1..] == rest;
    }
  }

  lemma PrefixedOne(x: string, sep: string)
    ensures Prefixed([x], sep) == sep + x
  {
    assert [x][1..] == [];
  }

  lemma {:induction false} PrefixedAppend(x: seq<string>, y: seq<string>, sep: string)
    ensures Prefixed(x + y, sep) == Prefixed(x, sep) + Prefixed(y, sep)
    decreases |x|
  {
    if x != [] {
      PrefixedAppend(x[1..], y, sep);
      assert (x + y)[1..] == x[1..] + y;
    } else {
      assert x + y == y;
    }
  }

  /** Python's " ".join(s.split()): whitespace runs become one space, ends trimmed. */
  function CollapseSpaces(s: string): (r: string)
    ensures forall c :: c in r ==> c == ' ' || (c in s && !IsSpace(c))
    ensures SingleSpaced(r)
    ensures r == [] <==> forall i :: 0 <= i < |s| ==> IsSpace(s[i])
  {
    var ws := Words(s);
    JoinWordsShape(ws);
    forall c | c in Join(ws, " ") ensures c == ' ' || (c in s && !IsSpace(c)) {
      JoinChars(ws, " ", c);
    }
    Join(ws, " ")
  }

  /** Every space sits between two non-space characters: no leading, trailing or doubled space. */
  predicate SingleSpaced(r: string)
  {
    forall i :: 0 <= i < |r| && r[i] == ' ' ==> 0 < i < |r| - 1 && r[i + 1] != ' '
  }

  lemma {:induction false} JoinWordsShape(ws: seq<string>)
    requires forall i :: 0 <= i < |ws| ==> IsWord(ws[i])
    ensures SingleSpaced(Join(ws, " "))
    ensures ws != [] ==> Join(ws, " ") != [] && Join(ws, " ")[0] != ' '
  {
    if |ws| == 1 {
      assert forall i :: 0 <= i < |ws[0]| ==> ws[0][i] in ws[0];
    } else if |ws| > 1 {
      var w := ws[0];
      var rest := Join(ws[1..], " ");
      JoinWordsShape(ws[1..]);
      var r := w + " " + rest;
      assert r == Join(ws, " ");
      assert forall i :: 0 <= i < |w| ==> w[i] in w;
      assert forall i :: 0 <= i < |w| ==> r[i] == w[i] && r[i] != ' ';
      forall i | |w| <= i < |r| && r[i] == ' '
        ensures 0 < i < |r| - 1 && r[i + 1] != ' '
      {
        if i == |w| {
          assert r[i + 1] == rest[0];
        } else {
          assert r[i] == rest[i - |w| - 1];
          assert i + 1 < |r| ==> r[i + 1] == rest[i - |w|];
        }
      }
      assert r[0] == w[0] && w[0] in w;
    }
  }

  lemma {:induction false} JoinChars(ws: seq<string>, sep: string, c: char)
    requires c in Join(ws, sep)
    ensures c in sep || exists i :: 0 <= i < |ws| && c in ws[i]
  {
    if |ws| > 1 {
      if c in ws[0] + sep {
      } else {
        JoinChars(ws[1..], sep, c);
        var i :| 0 <= i < |ws[1..]| && c in ws[1..][i];
        assert c in ws[i + 1];
      }
    }
  }

  // ---------------------------------------------------------------
  // Numbers as text
  // ---------------------------------------------------------------

  /** Python's str(n) for a non-negative integer. */
  function NatToString(n: nat): (r: string)
    ensures r != [] && forall c :: c in r ==> IsDigit(c)
    ensures |r| > 1 ==> r[0] != '0'
    decreases n
  {
    if n < 10 then [(n + '0' as int) as char]
    else NatToString(n / 10) + [(n % 10 + '0' as int) as char]
  }

  /** Python's str(n) for any integer. */
  function IntToString(n: int): (r: string)
    ensures r != []
    ensures n >= 0 <==> r[0] != '-'
  {
    if n >= 0 then
      var d := NatToString(n);
      assert d[0] in d;
      d
    else "-" + NatToString(-n)
  }

  /** Decimal value of a digit string (int(s) for ASCII digit strings). */
  function DigitsValue(s: string): (r: nat)
    requires forall c :: c in s ==> IsDigit(c)
    decreases |s|
  {
    if s == [] then 0 else DigitsValue(s[..|s| - 1]) * 10 + DigitValue(s[|s| - 1])
  }

  lemma {:induction false} DigitsValueOfNatToString(n: nat)
    ensures DigitsValue(NatToString(n)) == n
    decreases n
  {
    var s := NatToString(n);
    if n >= 10 {
      DigitsValueOfNatToString(n / 10);
      assert s[..|s| - 1] == NatToString(n / 10);
    }
  }

  function Pow10(k: nat): (r: nat)
    ensures r >= 1
  {
    if k == 0 then 1 else 10 * Pow10(k - 1)
  }

  function Max(a: int, b: int): (r: int)
    ensures r >= a && r >= b && (r == a || r == b)
  {
    if a >= b then a else b
  }

  function Min(a: int, b: int): (r: int)
    ensures r <= a && r <= b && (r == a || r == b)
  {
    if a <= b then a else b
  }

  /** Python truthiness of an optional text (None and "" are false). */
  predicate TruthyText(s: Option<string>)
  {
    s.Some? && s.value != ""
  }

  function AbsReal(x: real): (r: real)
    ensures r >= 0.0 && (r == x || r == -x)
  {
    if x < 0.0 then -x else x
  }
}
