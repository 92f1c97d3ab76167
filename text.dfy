/** String helpers shared by the server (Python) and the userscript (JavaScript):
    lowering, substring search, the two languages' whitespace, trimming and
    splitting. Characters are Unicode scalar values. */
module Text {

  /** Option, as the server's `None` and the client's `null`. */
  datatype Option<+T> = None | Some(value: T)

  /** Success or failure of an operation that may raise; the error is the exception's message. */
  datatype Result<+T> = Ok(value: T) | Err(error: string)

  /** Success or failure of an operation that returns nothing. */
  datatype Outcome = Pass | Fail(error: string)

  // ---------------------------------------------------------------------------
  // Lowering

  /** Lower-cases one ASCII letter and leaves every other character alone. */
  function LowerChar(c: char): (d: char)
    ensures 'A' <= c <= 'Z' ==> d as int == c as int + 32
    ensures !('A' <= c <= 'Z') ==> d == c
  {
    if 'A' <= c <= 'Z' then (c as int + 32) as char else c
  }

  /** `str.lower()` / `String.prototype.toLowerCase()` restricted to ASCII letters. */
  function Lower(s: string): (r: string)
    ensures |r| == |s|
    ensures forall i :: 0 <= i < |s| ==> r[i] == LowerChar(s[i])
  {
    seq(|s|, i requires 0 <= i < |s| => LowerChar(s[i]))
  }

  // ---------------------------------------------------------------------------
  // Substrings

  /** `sub` occurs in `s` as a contiguous run: Python's `sub in s`, JavaScript's `s.includes(sub)`. */
  ghost predicate Occurs(sub: string, s: string) {
    exists i :: 0 <= i <= |s| && sub <= s[i..]
  }

  /** Left-to-right search for `sub` in `s`. */
  function Contains(s: string, sub: string): (b: bool)
    ensures b <==> Occurs(sub, s)
    decreases |s|
  {
    if sub <= s then true
    else if s == [] then false
    else
      var b := Contains(s[1..], sub);
      assert b ==> Occurs(sub, s) by {
        if b {
          var i :| 0 <= i <= |s[1..]| && sub <= s[1..][i..];
          assert s[1..][i..] == s[i + 1..];
        }
      }
      assert Occurs(sub, s) ==> b by {
        if Occurs(sub, s) {
          var i :| 0 <= i <= |s| && sub <= s[i..];
          assert i != 0;
          assert s[1..][i - 1..] == s[i..];
        }
      }
      b
  }

  /** Some element of `words` occurs in `s` (`words.some(w => s.includes(w))`). */
  function ContainsAny(s: string, words: seq<string>): (b: bool)
    ensures b <==> exists w :: w in words && Occurs(w, s)
  {
    if words == [] then false
    else Contains(s, words[0]) || ContainsAny(s, words[1..])
  }

  /** `s` with every `from` replaced by `to` (`str.replace` of one character). */
  function ReplaceChar(s: string, from: char, to: char): (r: string)
    ensures |r| == |s|
    ensures forall i :: 0 <= i < |s| ==> r[i] == if s[i] == from then to else s[i]
  {
    seq(|s|, i requires 0 <= i < |s| => if s[i] == from then to else s[i])
  }

  // ---------------------------------------------------------------------------
  // Whitespace

  /** The characters for which Python's `str.isspace()` holds. */
  predicate IsPythonSpace(c: char) {
    || c == '\t' || c == '\n' || c == '\U{000B}' || c == '\U{000C}' || c == '\r'
    || ('\U{001C}' <= c <= '\U{001F}') || c == ' ' || c == '\U{0085}' || c == '\U{00A0}'
    || c == '\U{1680}' || ('\U{2000}' <= c <= '\U{200A}') || c == '\U{2028}' || c == '\U{2029}'
    || c == '\U{202F}' || c == '\U{205F}' || c == '\U{3000}'
  }

  /** JavaScript's WhiteSpace and LineTerminator characters: what `trim()` removes and `\s` matches. */
  predicate IsJsSpace(c: char) {
    || c == '\t' || c == '\n' || c == '\U{000B}' || c == '\U{000C}' || c == '\r'
    || c == ' ' || c == '\U{00A0}' || c == '\U{1680}' || ('\U{2000}' <= c <= '\U{200A}')
    || c == '\U{2028}' || c == '\U{2029}' || c == '\U{202F}' || c == '\U{205F}'
    || c == '\U{3000}' || c == '\U{FEFF}'
  }

  // ---------------------------------------------------------------------------
  // JavaScript lengths

  /** JavaScript's `s.length`: the number of UTF-16 code units, two for each
      character outside the Basic Multilingual Plane. */
  function Utf16Length(s: string): (n: nat)
    ensures |s| <= n <= 2 * |s|
  {
    if s == [] then 0 else (if s[0] as int > 0xFFFF then 2 else 1) + Utf16Length(s[1..])
  }

  /** A text within the Basic Multilingual Plane has one code unit per character. */
  lemma {:induction false} Utf16LengthOfBmp(s: string)
    requires forall k :: 0 <= k < |s| ==> s[k] as int <= 0xFFFF
    ensures Utf16Length(s) == |s|
  {
    if s != [] {
      Utf16LengthOfBmp(s[1..]);
    }
  }

  /** Code units add up over concatenation. */
  lemma {:induction false} Utf16LengthOfConcat(a: string, b: string)
    ensures Utf16Length(a + b) == Utf16Length(a) + Utf16Length(b)
  {
    if a == [] {
      assert a + b == b;
    } else {
      assert (a + b)[1..] == a[1..] + b;
      Utf16LengthOfConcat(a[1..], b);
    }
  }

  /** `s` without its leading characters of kind `space`. */
  function TrimStart(s: string, space: char -> bool): (r: string)
    ensures |r| <= |s| && r == s[|s| - |r|..]
    ensures forall k :: 0 <= k < |s| - |r| ==> space(s[k])
    ensures r == [] || !space(r[0])
  {
    if s != [] && space(s[0]) then TrimStart(s[1..], space) else s
  }

  /** `s` without its trailing characters of kind `space`. */
  function TrimEnd(s: string, space: char -> bool): (r: string)
    ensures |r| <= |s| && r == s[..|r|]
    ensures forall k :: |r| <= k < |s| ==> space(s[k])
    ensures r == [] || !space(r[|r| - 1])
  {
    if s != [] && space(s[|s| - 1]) then TrimEnd(s[..|s| - 1], space) else s
  }

  /** Python's `str.strip()`: a slice of `s` that neither starts nor ends with whitespace. */
  function Strip(s: string): (r: string)
    ensures |r| <= |s|
    ensures r == [] || (!IsPythonSpace(r[0]) && !IsPythonSpace(r[|r| - 1]))
  {
    TrimEnd(TrimStart(s, IsPythonSpace), IsPythonSpace)
  }

  /** JavaScript's `String.prototype.trim()`: a slice of `s` that neither starts nor ends with whitespace. */
  function Trim(s: string): (r: string)
    ensures |r| <= |s|
    ensures r == [] || (!IsJsSpace(r[0]) && !IsJsSpace(r[|r| - 1]))
  {
    TrimEnd(TrimStart(s, IsJsSpace), IsJsSpace)
  }

  /** What a strip removes is whitespace at either end (the first `i` characters
      and those after `i + |r|`), and the result neither starts nor ends with whitespace. */
  lemma TrimmedIsInnerSlice(s: string, space: char -> bool) returns (i: nat)
    ensures i + |TrimEnd(TrimStart(s, space), space)| <= |s|
    ensures TrimEnd(TrimStart(s, space), space) == s[i..i + |TrimEnd(TrimStart(s, space), space)|]
    ensures forall k :: 0 <= k < i ==> space(s[k])
    ensures forall k :: i + |TrimEnd(TrimStart(s, space), space)| <= k < |s| ==> space(s[k])
    ensures TrimEnd(TrimStart(s, space), space) != [] ==> !space(s[i])
  {
    var t := TrimStart(s, space);
    i := |s| - |t|;
    InnerSlice(s, t, TrimEnd(t, space), i, space);
  }

  /** The slice argument of `TrimmedIsInnerSlice` for given `t` and `r`. */
  lemma InnerSlice(s: string, t: string, r: string, i: nat, space: char -> bool)
    requires i == |s| - |t| && |t| <= |s| && t == s[i..]
    requires |r| <= |t| && r == t[..|r|] && forall k :: |r| <= k < |t| ==> space(t[k])
    ensures i + |r| <= |s| && r == s[i..i + |r|]
    ensures forall k :: i + |r| <= k < |s| ==> space(s[k])
    ensures r != [] ==> r[0] == s[i]
  {
    forall k | i + |r| <= k < |s| ensures space(s[k]) {
      assert s[k] == t[k - i];
    }
  }

  // ---------------------------------------------------------------------------
  // Splitting

  /** The length of the run of non-`space` characters that starts `s`. */
  function RunLength(s: string, space: char -> bool): (n: nat)
    ensures n <= |s|
    ensures forall k :: 0 <= k < n ==> !space(s[k])
    ensures n == |s| || space(s[n])
  {
    if s == [] || space(s[0]) then 0 else 1 + RunLength(s[1..], space)
  }

  /** Python's `str.split()` with no argument: the maximal runs of non-whitespace. */
  function Words(s: string): (ws: seq<string>)
    ensures forall w :: w in ws ==> w != [] && forall c :: c in w ==> !IsPythonSpace(c)
    decreases |s|
  {
    var t := TrimStart(s, IsPythonSpace);
    if t == [] then []
    else
      var n := RunLength(t, IsPythonSpace);
      [t[..n]] + Words(t[n..])
  }

  /** Only whitespace in `s`. */
  predicate AllPythonSpace(s: string) {
    forall k :: 0 <= k < |s| ==> IsPythonSpace(s[k])
  }

  /** `seps[0] + ws[0] + seps[1] + ... + ws[n - 1] + seps[n]`: the words with the
      runs of whitespace around and between them. */
  function Spaced(seps: seq<string>, ws: seq<string>): string
    requires |seps| == |ws| + 1
  {
    if ws == [] then seps[0] else seps[0] + ws[0] + Spaced(seps[1..], ws[1..])
  }

  /** `seps` are runs of whitespace that can surround `ws`: one more run than
      words, and a non-empty run between two words. */
  ghost predicate IsSpacing(seps: seq<string>, ws: seq<string>) {
    && |seps| == |ws| + 1
    && (forall i :: 0 <= i < |seps| ==> AllPythonSpace(seps[i]))
    && (forall i :: 0 < i < |ws| ==> seps[i] != [])
  }

  /** Leading characters of kind `space` before any other are exactly what
      `TrimStart` drops. */
  lemma {:induction false} TrimStartSkips(a: string, b: string, space: char -> bool)
    requires forall k :: 0 <= k < |a| ==> space(a[k])
    requires b == [] || !space(b[0])
    ensures TrimStart(a + b, space) == b
  {
    if a == [] {
      assert a + b == b;
    } else {
      assert (a + b)[1..] == a[1..] + b;
      TrimStartSkips(a[1..], b, space);
    }
  }

  /** One more word in front, after a run of whitespace. */
  lemma SpacingCons(pre: string, w: string, seps: seq<string>, ws: seq<string>)
    requires AllPythonSpace(pre) && IsSpacing(seps, ws) && (ws != [] ==> seps[0] != [])
    ensures IsSpacing([pre] + seps, [w] + ws)
    ensures Spaced([pre] + seps, [w] + ws) == pre + w + Spaced(seps, ws)
  {
    var seps2, ws2 := [pre] + seps, [w] + ws;
    assert seps2[1..] == seps && ws2[1..] == ws;
    forall i | 0 <= i < |seps2| ensures AllPythonSpace(seps2[i]) {
      if i > 0 { assert seps2[i] == seps[i - 1]; }
    }
    forall i | 0 < i < |ws2| ensures seps2[i] != [] {
      assert seps2[i] == seps[i - 1];
    }
  }

  /** A text of whitespace only has no words. */
  lemma NoWords(s: string)
    requires AllPythonSpace(s)
    ensures Words(s) == []
  {
    TrimStartSkips(s, [], IsPythonSpace);
    assert s + [] == s;
  }

  /** Whitespace, a word, then nothing or whitespace: the word comes first. */
  lemma {:induction false} FirstWord(pre: string, w: string, rest: string)
    requires AllPythonSpace(pre)
    requires w != [] && forall k :: 0 <= k < |w| ==> !IsPythonSpace(w[k])
    requires rest == [] || IsPythonSpace(rest[0])
    ensures Words(pre + w + rest) == [w] + Words(rest)
  {
    assert pre + w + rest == pre + (w + rest);
    TrimStartSkips(pre, w + rest, IsPythonSpace);
    RunOfWord(w, rest, IsPythonSpace);
    assert (w + rest)[..|w|] == w && (w + rest)[|w|..] == rest;
  }

  /** A sequence is its two slices at any point. */
  lemma SliceSplit(x: string, i: nat)
    requires i <= |x|
    ensures x == x[..i] + x[i..]
  {
  }

  /** A non-empty sequence is its head and its tail. */
  lemma SliceSplit'(x: seq<string>)
    requires x != []
    ensures x == [x[0]] + x[1..]
  {
  }

  /** Concatenation regroups freely. */
  lemma Regroup<T>(a: seq<T>, b: seq<T>, c: seq<T>)
    ensures a + (b + c) == a + b + c
  {
  }

  /** Leading characters of kind `space`, a run of other characters, and the rest. */
  lemma SplitAtRun(s: string, space: char -> bool) returns (pre: string, w: string, rest: string)
    requires TrimStart(s, space) != []
    ensures s == pre + w + rest && |rest| < |s|
    ensures w + rest == TrimStart(s, space)
    ensures w == (w + rest)[..RunLength(w + rest, space)] && rest == (w + rest)[RunLength(w + rest, space)..]
    ensures forall k :: 0 <= k < |pre| ==> space(pre[k])
    ensures rest == [] || space(rest[0])
    ensures space(s[0]) ==> pre != []
  {
    var t := TrimStart(s, space);
    pre := s[..|s| - |t|];
    var n := RunLength(t, space);
    w, rest := t[..n], t[n..];
    SliceSplit(t, n);
    SliceSplit(s, |s| - |t|);
    Regroup(pre, w, rest);
  }

  /** The first step of `Words`: leading whitespace, a word, and the rest. */
  lemma WordsStep(s: string) returns (pre: string, w: string, rest: string)
    requires TrimStart(s, IsPythonSpace) != []
    ensures s == pre + w + rest && |rest| < |s|
    ensures AllPythonSpace(pre) && (rest == [] || IsPythonSpace(rest[0]))
    ensures Words(s) == [w] + Words(rest)
    ensures IsPythonSpace(s[0]) ==> pre != []
  {
    pre, w, rest := SplitAtRun(s, IsPythonSpace);
  }

  /** Every text is its words with runs of whitespace around and between them:
      the words are the maximal runs of non-whitespace, in order. */
  lemma {:induction false} WordsAreSpaced(s: string) returns (seps: seq<string>)
    ensures IsSpacing(seps, Words(s)) && Spaced(seps, Words(s)) == s
    ensures s != [] && IsPythonSpace(s[0]) ==> seps[0] != []
    decreases |s|
  {
    if TrimStart(s, IsPythonSpace) == [] {
      assert AllPythonSpace(s);
      NoWords(s);
      seps := [s];
      assert seps[0] == s;
    } else {
      var pre, w, rest := WordsStep(s);
      var seps' := WordsAreSpaced(rest);
      if rest == [] { NoWords(rest); }
      SpacingCons(pre, w, seps', Words(rest));
      seps := [pre] + seps';
    }
  }

  /** Words laid out with whitespace start with the first run of whitespace. */
  lemma SpacedStartsWithSpacing(seps: seq<string>, ws: seq<string>)
    requires |seps| == |ws| + 1
    ensures seps[0] <= Spaced(seps, ws)
  {
    if ws != [] {
      Regroup(seps[0], ws[0], Spaced(seps[1..], ws[1..]));
    }
  }

  /** Non-empty runs without whitespace. */
  predicate AreWords(ws: seq<string>) {
    forall i :: 0 <= i < |ws| ==> ws[i] != [] && forall k :: 0 <= k < |ws[i]| ==> !IsPythonSpace(ws[i][k])
  }

  /** Dropping the first word and the run before it leaves a layout of the rest. */
  lemma SpacingOfRest(seps: seq<string>, ws: seq<string>)
    requires IsSpacing(seps, ws) && AreWords(ws) && ws != []
    ensures IsSpacing(seps[1..], ws[1..]) && AreWords(ws[1..])
    ensures AllPythonSpace(seps[0])
    ensures var rest := Spaced(seps[1..], ws[1..]); rest == [] || IsPythonSpace(rest[0])
  {
    var seps', ws' := seps[1..], ws[1..];
    forall i | 0 <= i < |seps'| ensures AllPythonSpace(seps'[i]) {
      assert seps'[i] == seps[i + 1];
    }
    forall i | 0 < i < |ws'| ensures seps'[i] != [] {
      assert seps'[i] == seps[i + 1];
    }
    forall i | 0 <= i < |ws'| ensures ws'[i] == ws[i + 1] {}
    var rest := Spaced(seps', ws');
    SpacedStartsWithSpacing(seps', ws');
    assert seps'[0] == seps[1] && AllPythonSpace(seps[1]);
    if ws' != [] {
      assert seps[1] != [] && rest[0] == seps[1][0];
    } else {
      assert rest == seps[1];
    }
  }

  /** Conversely, splitting words laid out with whitespace gives the words back. */
  lemma {:induction false} SpacedWords(seps: seq<string>, ws: seq<string>)
    requires IsSpacing(seps, ws) && AreWords(ws)
    ensures Words(Spaced(seps, ws)) == ws
  {
    if ws == [] {
      assert AllPythonSpace(seps[0]);
      NoWords(seps[0]);
    } else {
      SpacingOfRest(seps, ws);
      SpacedWords(seps[1..], ws[1..]);
      SpacedWordsStep(seps, ws);
    }
  }

  /** The inductive step of `SpacedWords`: the first word, then the words of the rest. */
  lemma SpacedWordsStep(seps: seq<string>, ws: seq<string>)
    requires |seps| == |ws| + 1 && ws != [] && AreWords(ws) && AllPythonSpace(seps[0])
    requires var rest := Spaced(seps[1..], ws[1..]); rest == [] || IsPythonSpace(rest[0])
    requires Words(Spaced(seps[1..], ws[1..])) == ws[1..]
    ensures Words(Spaced(seps, ws)) == ws
  {
    var rest := Spaced(seps[1..], ws[1..]);
    var s := seps[0] + ws[0] + rest;
    assert Words(s) == ws by {
      FirstWord(seps[0], ws[0], rest);
      SliceSplit'(ws);
    }
    assert Spaced(seps, ws) == s;
  }

  /** A run of other characters followed by nothing or by a `space` is one run. */
  lemma {:induction false} RunOfWord(w: string, rest: string, space: char -> bool)
    requires forall k :: 0 <= k < |w| ==> !space(w[k])
    requires rest == [] || space(rest[0])
    ensures RunLength(w + rest, space) == |w|
  {
    if w != [] {
      assert (w + rest)[1..] == w[1..] + rest;
      RunOfWord(w[1..], rest, space);
    } else {
      assert w + rest == rest;
    }
  }

  /** The parts joined back with `sep` between them (JavaScript's `parts.join(sep)`). */
  function Join(parts: seq<string>, sep: char): string
  {
    if parts == [] then [] else if |parts| == 1 then parts[0] else parts[0] + [sep] + Join(parts[1..], sep)
  }

  /** JavaScript's `s.split(sep)` for a one-character separator. */
  function SplitOn(s: string, sep: char): (parts: seq<string>)
    ensures |parts| >= 1
    ensures forall p :: p in parts ==> sep !in p
  {
    if s == [] then [[]]
    else
      var rest := SplitOn(s[1..], sep);
      if s[0] == sep then [[]] + rest else [[s[0]] + rest[0]] + rest[1..]
  }

  /** Splitting loses nothing: joining the parts with the separator gives the string back. */
  lemma {:induction false} SplitOnJoin(s: string, sep: char)
    ensures Join(SplitOn(s, sep), sep) == s
  {
    if s != [] {
      var rest := SplitOn(s[1..], sep);
      SplitOnJoin(s[1..], sep);
      if s[0] == sep {
        assert SplitOn(s, sep)[1..] == rest;
      } else {
        var parts := SplitOn(s, sep);
        if |rest| == 1 {
          assert parts == [[s[0]] + rest[0]];
        } else {
          assert parts[1..] == rest[1..];
          assert Join(rest, sep) == rest[0] + [sep] + Join(rest[1..], sep);
        }
      }
    }
  }

  // ---------------------------------------------------------------------------
  // Code fences

  const Fence: string := "```"

  /** The text before the first "```" in `s`, or all of `s` when there is none:
      element 1 of Python's `("```" + s).split("```")`. */
  function UpToFence(s: string): (r: string)
    ensures r <= s
    ensures forall k :: 0 <= k < |r| ==> !(Fence <= s[k..])
    ensures r == s || Fence <= s[|r|..]
  {
    if Fence <= s || s == [] then []
    else
      var r := UpToFence(s[1..]);
      assert forall k :: 1 <= k <= |s| ==> s[1..][k - 1..] == s[k..];
      [s[0]] + r
  }
}
