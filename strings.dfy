// Python string operations that the seoman core relies on, restricted to
// what the core uses: ASCII case mapping, ASCII whitespace, `str.replace`,
// `str.split(sep)`, `str.split()`, `sep.join`, `endswith`, `in`,
// `isnumeric` and decimal rendering of integers.

module Strings {

  predicate IsUpper(c: char) { 'A' <= c <= 'Z' }

  predicate IsDigit(c: char) { '0' <= c <= '9' }

  /** The whitespace characters `str.strip()` and `str.split()` remove (ASCII
      part): tab, line feed, vertical tab, form feed, carriage return, the
      four separators 28-31 and the space. */
  predicate IsSpace(c: char) {
    c == ' ' || 9 <= c as int <= 13 || 28 <= c as int <= 31
  }

  /** Python's `str.lower` on one character (ASCII letters only). */
  function LowerChar(c: char): (r: char)
    ensures !IsUpper(r)
    ensures !IsUpper(c) ==> r == c
    ensures IsUpper(c) ==> r as int == c as int + 32
  {
    if IsUpper(c) then (c as int + 32) as char else c
  }

  function Lower(s: string): (r: string)
    ensures |r| == |s|
    ensures forall i :: 0 <= i < |s| ==> r[i] == LowerChar(s[i])
  {
    seq(|s|, i requires 0 <= i < |s| => LowerChar(s[i]))
  }

  /** A character that `LowerChar` sends nowhere else: not a letter. */
  lemma LowerKeepsAbsent(s: string, d: char)
    requires !('A' <= d <= 'Z') && !('a' <= d <= 'z')
    requires d !in s
    ensures d !in Lower(s)
  {
  }

  lemma LowerHasNoUpper(s: string)
    ensures forall c :: c in Lower(s) ==> !IsUpper(c)
  {
    var r := Lower(s);
    forall c | c in r ensures !IsUpper(c) {
      var i :| 0 <= i < |r| && r[i] == c;
    }
  }

  /** Python's `s.replace(old, new)`: every non-overlapping occurrence of `pat`,
      scanning from the left, becomes `sub`. */
  function Replace(s: string, pat: string, sub: string): (r: string)
    requires |pat| > 0
    ensures forall c :: c in r ==> c in s || c in sub
    ensures |pat| == 1 && pat[0] !in sub ==> pat[0] !in r
    decreases |s|
  {
    if |s| < |pat| then s
    else if s[..|pat|] == pat then sub + Replace(s[|pat|..], pat, sub)
    else [s[0]] + Replace(s[1..], pat, sub)
  }

  /** `parts` joined with `sep` between consecutive parts (Python `sep.join`). */
  function Join(parts: seq<string>, sep: string): (r: string)
    ensures |parts| == 1 ==> r == parts[0]
    decreases |parts|
  {
    if |parts| == 0 then ""
    else if |parts| == 1 then parts[0]
    else parts[0] + sep + Join(parts[1..], sep)
  }

  /** Python's `s.split(sep)` for a one-character separator. */
  function SplitOn(s: string, sep: char): (r: seq<string>)
    ensures |r| >= 1
    ensures forall i :: 0 <= i < |r| ==> sep !in r[i]
    ensures Join(r, [sep]) == s
    decreases |s|
  {
    if |s| == 0 then [""]
    else
      var rest := SplitOn(s[1..], sep);
      if s[0] == sep then [""] + rest
      else [[s[0]] + rest[0]] + rest[1..]
  }

  /** The pieces of `Join(parts, [sep])` are `parts` again when no part holds `sep`. */
  lemma {:induction false} SplitJoin(parts: seq<string>, sep: char)
    requires |parts| >= 1
    requires forall i :: 0 <= i < |parts| ==> sep !in parts[i]
    ensures SplitOn(Join(parts, [sep]), sep) == parts
    decreases |parts|, |parts[0]|
  {
    var p := parts[0];
    if |p| == 0 {
      if |parts| == 1 {
      } else {
        var tail := Join(parts[1..], [sep]);
        assert Join(parts, [sep]) == [sep] + tail;
        SplitJoin(parts[1..], sep);
        assert ([sep] + tail)[1..] == tail;
      }
    } else {
      var shorter := [p[1..]] + parts[1..];
      assert shorter[1..] == parts[1..];
      assert Join(parts, [sep]) == [p[0]] + Join(shorter, [sep]) by {
        if |parts| == 1 {
        } else {
          assert Join(shorter, [sep]) == p[1..] + [sep] + Join(parts[1..], [sep]);
          assert p == [p[0]] + p[1..];
        }
      }
      assert sep !in p[1..] by { assert forall c :: c in p[1..] ==> c in p; }
      SplitJoin(shorter, sep);
      var s := Join(parts, [sep]);
      assert s[1..] == Join(shorter, [sep]);
      assert s[0] == p[0];
      assert p[0] != sep;
      assert [p[0]] + p[1..] == p;
      assert [p] + shorter[1..] == parts;
    }
  }

  function TrimStart(s: string): (r: string)
    ensures |r| <= |s| && r == s[|s| - |r|..]
    ensures r == [] || !IsSpace(r[0])
    ensures forall i :: 0 <= i < |s| - |r| ==> IsSpace(s[i])
    decreases |s|
  {
    if |s| > 0 && IsSpace(s[0]) then TrimStart(s[1..]) else s
  }

  function TrimEnd(s: string): (r: string)
    ensures |r| <= |s| && r == s[..|r|]
    ensures r == [] || !IsSpace(r[|r| - 1])
    ensures forall i :: |r| <= i < |s| ==> IsSpace(s[i])
    decreases |s|
  {
    if |s| > 0 && IsSpace(s[|s| - 1]) then TrimEnd(s[..|s| - 1]) else s
  }

  /** Python's `s.strip()`: leading and trailing whitespace removed. */
  function Strip(s: string): (r: string)
    ensures r == "" <==> forall i :: 0 <= i < |s| ==> IsSpace(s[i])
    ensures r != "" ==> !IsSpace(r[0]) && !IsSpace(r[|r| - 1])
  {
    TrimEnd(TrimStart(s))
  }

  /** A string that carries no leading or trailing whitespace strips to itself. */
  lemma StripUnchanged(s: string)
    requires s != [] ==> !IsSpace(s[0]) && !IsSpace(s[|s| - 1])
    ensures Strip(s) == s
  {
  }

  /** The longest prefix of `s` with no whitespace. */
  function Word(s: string): (r: string)
    ensures |r| <= |s| && r == s[..|r|]
    ensures forall i :: 0 <= i < |r| ==> !IsSpace(r[i])
    ensures |r| < |s| ==> IsSpace(s[|r|])
    decreases |s|
  {
    if |s| == 0 || IsSpace(s[0]) then "" else [s[0]] + Word(s[1..])
  }

  predicate IsToken(w: string) {
    w != "" && forall j :: 0 <= j < |w| ==> !IsSpace(w[j])
  }

  /** Python's `s.split()` with no argument: the maximal runs of non-whitespace. */
  function SplitWords(s: string): (r: seq<string>)
    ensures forall i :: 0 <= i < |r| ==> IsToken(r[i])
    decreases |s|
  {
    var t := TrimStart(s);
    if t == "" then []
    else
      var w := Word(t);
      assert w != "" by { assert !IsSpace(t[0]); }
      var rest := SplitWords(t[|w|..]);
      var r := [w] + rest;
      assert IsToken(w);
      assert forall i :: 0 <= i < |r| ==> IsToken(r[i]) by {
        forall i | 0 < i < |r| ensures IsToken(r[i]) {
          assert r[i] == rest[i - 1];
        }
      }
      r
  }

  /** A single character is at most one word. */
  lemma SplitWordsOneChar(c: char)
    ensures |SplitWords([c])| <= 1
  {
    if !IsSpace(c) {
      assert Word([c]) == [c] by { assert Word([c][1..]) == ""; }
      assert [c][|[c]|..] == "";
    }
  }

  lemma WordOfJoin(w: string, rest: string)
    requires IsToken(w)
    ensures Word(w) == w
    ensures Word(w + " " + rest) == w
    decreases |w|
  {
    if |w| > 1 {
      WordOfJoin(w[1..], rest);
      assert (w + " " + rest)[1..] == w[1..] + " " + rest;
    } else {
      assert (w + " " + rest)[1..] == " " + rest;
    }
  }

  /** Tokens joined by single spaces split back into the same tokens. */
  lemma {:induction false} SplitWordsJoin(ws: seq<string>)
    requires forall i :: 0 <= i < |ws| ==> IsToken(ws[i])
    ensures SplitWords(Join(ws, " ")) == ws
    decreases |ws|
  {
    if |ws| == 0 {
    } else if |ws| == 1 {
      var w := ws[0];
      WordOfJoin(w, "");
      assert TrimStart(w) == w;
      assert w[|w|..] == "";
    } else {
      var w := ws[0];
      var rest := Join(ws[1..], " ");
      assert Join(ws, " ") == w + " " + rest;
      SplitWordsCons(w, rest);
      SplitWordsJoin(ws[1..]);
      assert [w] + ws[1..] == ws;
    }
  }

  /** A token, a space and more text split into the token and the words of
      the rest. */
  lemma SplitWordsCons(w: string, rest: string)
    requires IsToken(w)
    ensures SplitWords(w + " " + rest) == [w] + SplitWords(rest)
  {
    var s := w + " " + rest;
    WordOfJoin(w, rest);
    assert TrimStart(s) == s;
    assert s[|w|..] == " " + rest;
    assert TrimStart(" " + rest) == TrimStart(rest) by {
      assert (" " + rest)[1..] == rest;
    }
    assert SplitWords(s) == [w] + SplitWords(" " + rest);
    SameTrimSameWords(" " + rest, rest);
  }

  lemma SameTrimSameWords(a: string, b: string)
    requires TrimStart(a) == TrimStart(b)
    ensures SplitWords(a) == SplitWords(b)
  {
  }

  /** No string occurs twice. */
  predicate NoDuplicates(keys: seq<string>)
  {
    forall i, j :: 0 <= i < j < |keys| ==> keys[i] != keys[j]
  }

  predicate EndsWith(s: string, suffix: string) {
    |suffix| <= |s| && s[|s| - |suffix|..] == suffix
  }

  predicate StartsWith(s: string, prefix: string) {
    |prefix| <= |s| && s[..|prefix|] == prefix
  }

  /** Python's `sub in s` on strings. */
  predicate Contains(s: string, sub: string)
    decreases |s|
  {
    StartsWith(s, sub) || (|s| > 0 && Contains(s[1..], sub))
  }

  lemma ContainsChar(s: string, c: char)
    ensures Contains(s, [c]) <==> c in s
    decreases |s|
  {
    if |s| > 0 {
      ContainsChar(s[1..], c);
      assert c in s <==> s[0] == c || c in s[1..];
    }
  }

  /** A text that holds `sub` holds its first character. */
  lemma {:induction false} ContainsFirst(s: string, sub: string)
    requires |sub| > 0 && Contains(s, sub)
    ensures sub[0] in s
    decreases |s|
  {
    if !StartsWith(s, sub) {
      ContainsFirst(s[1..], sub);
    } else {
      assert s[0] == sub[0];
    }
  }

  /** Python's `str.isnumeric` (ASCII digits only). */
  predicate IsNumeric(s: string) {
    |s| > 0 && forall i :: 0 <= i < |s| ==> IsDigit(s[i])
  }

  /** `int(s)` for a string of decimal digits. */
  function DecimalValue(s: string): (n: nat)
    requires forall i :: 0 <= i < |s| ==> IsDigit(s[i])
    decreases |s|
  {
    if |s| == 0 then 0
    else
      assert IsDigit(s[|s| - 1]);
      10 * DecimalValue(s[..|s| - 1]) + (s[|s| - 1] as int - '0' as int)
  }

  function DigitChar(d: nat): (c: char)
    requires d < 10
    ensures IsDigit(c) && c as int - '0' as int == d
  {
    ('0' as int + d) as char
  }

  /** Python's `str(n)` / `f"{n}"` for a natural number. */
  function DecimalString(n: nat): (r: string)
    ensures IsNumeric(r)
    ensures DecimalValue(r) == n
    ensures r[0] == '0' ==> n == 0
    decreases n
  {
    if n < 10 then [DigitChar(n)]
    else
      var h := DecimalString(n / 10);
      var r := h + [DigitChar(n % 10)];
      assert r[..|r| - 1] == h;
      r
  }
}
