/** The ECMAScript string operations the UI relies on: `String.prototype.trim`,
    the global replacement `s.replace(/\s+/g, " ")` and `Array.prototype.join`
    over strings. A string is modelled as a sequence of characters; the
    UTF-16 code units of an ECMAScript string, lone surrogates among them, are
    not modelled, and every white-space character lies in the Basic
    Multilingual Plane. */
module JsString {

  /** ECMAScript WhiteSpace together with LineTerminator (ECMA-262, sections
      12.2 and 12.3): the set matched by the regular-expression class `\s` and
      the set `trim` removes. The Zs category is that of Unicode 15. */
  predicate IsWs(c: char) {
    // WhiteSpace: TAB, VT, FF, ZWNBSP
    c == '\t' || c == '\U{000B}' || c == '\U{000C}' || c == '\U{FEFF}'
    // WhiteSpace: USP, the Unicode category Zs
    || c == ' ' || c == '\U{00A0}' || c == '\U{1680}'
    || ('\U{2000}' <= c && c <= '\U{200A}')
    || c == '\U{202F}' || c == '\U{205F}' || c == '\U{3000}'
    // LineTerminator: LF, CR, LS, PS
    || c == '\n' || c == '\r' || c == '\U{2028}' || c == '\U{2029}'
  }

  predicate AllWs(s: string) {
    forall i :: 0 <= i < |s| ==> IsWs(s[i])
  }

  /** No white-space character at all. */
  predicate NoWs(s: string) {
    forall i :: 0 <= i < |s| ==> !IsWs(s[i])
  }

  /** No white space at either end. */
  predicate Trimmed(s: string) {
    s == [] || (!IsWs(s[0]) && !IsWs(s[|s| - 1]))
  }

  /** Every white-space character is a plain space and no two of them are
      adjacent: the shape `replace(/\s+/g, " ")` leaves behind. */
  predicate Squashed(s: string) {
    && (forall i :: 0 <= i < |s| && IsWs(s[i]) ==> s[i] == ' ')
    && (forall i :: 0 <= i < |s| - 1 ==> !IsWs(s[i]) || !IsWs(s[i + 1]))
  }

  predicate EndsInWs(s: string) {
    s != [] && IsWs(s[|s| - 1])
  }

  /** The characters of `s` that are not white space, in order. */
  function NonWs(s: string): (r: string)
    ensures |r| <= |s|
  {
    if s == [] then []
    else (if IsWs(s[0]) then [] else [s[0]]) + NonWs(s[1..])
  }

  /** `trimStart`: drops the white space at the front. */
  function TrimStart(s: string): (r: string)
    ensures |r| <= |s| && r == s[|s| - |r|..]
    ensures r == [] || !IsWs(r[0])
  {
    if s != [] && IsWs(s[0]) then TrimStart(s[1..]) else s
  }

  /** `trimEnd`: drops the white space at the back. */
  function TrimEnd(s: string): (r: string)
    ensures |r| <= |s| && r == s[..|r|]
    ensures r == [] || !IsWs(r[|r| - 1])
  {
    if s != [] && IsWs(s[|s| - 1]) then TrimEnd(s[..|s| - 1]) else s
  }

  /** `String.prototype.trim`. */
  function Trim(s: string): string {
    TrimEnd(TrimStart(s))
  }

  /** `s.replace(/\s+/g, " ")`: the regular expression is greedy, so each
      maximal run of white space is replaced by a single space. */
  function ReplaceWsRuns(s: string): (r: string)
    ensures |r| <= |s|
    ensures r == [] <==> s == []
    ensures s != [] ==> r[0] == (if IsWs(s[0]) then ' ' else s[0])
    decreases |s|
  {
    if s == [] then []
    else if IsWs(s[0]) then " " + ReplaceWsRuns(TrimStart(s[1..]))
    else [s[0]] + ReplaceWsRuns(s[1..])
  }

  /** `Array.prototype.join` over strings. */
  function Join(parts: seq<string>, sep: string): string {
    if parts == [] then ""
    else if |parts| == 1 then parts[0]
    else parts[0] + sep + Join(parts[1..], sep)
  }

  /** The longest prefix of `s` without white space. */
  function TakeWord(s: string): (w: string)
    ensures |w| <= |s| && w == s[..|w|]
    ensures NoWs(w)
    ensures |w| < |s| ==> IsWs(s[|w|])
  {
    if s != [] && !IsWs(s[0]) then [s[0]] + TakeWord(s[1..]) else []
  }

  /** The maximal runs of non-white-space characters of `s`, in order: a
      reference for what white-space normalisation must keep. */
  function Words(s: string): (words: seq<string>)
    decreases |s|
  {
    var t := TrimStart(s);
    if t == [] then []
    else
      var w := TakeWord(t);
      [w] + Words(t[|w|..])
  }

  /** A word is a non-empty run without white space. */
  predicate IsWord(w: string) {
    w != [] && NoWs(w)
  }

  lemma ConcatAssoc(a: string, b: string, c: string)
    ensures a + (b + c) == a + b + c
  {
  }

  // ---------------------------------------------------------------- trim

  /** What `trimStart` drops is white space. */
  lemma {:induction false} TrimStartDropsWs(s: string)
    ensures AllWs(s[..|s| - |TrimStart(s)|])
  {
    if s != [] && IsWs(s[0]) {
      TrimStartDropsWs(s[1..]);
      var k := |s| - |TrimStart(s)|;
      assert forall i :: 1 <= i < k ==> s[..k][i] == s[1..][..k - 1][i - 1];
    }
  }

  /** What `trimEnd` drops is white space. */
  lemma {:induction false} TrimEndDropsWs(s: string)
    ensures AllWs(s[|TrimEnd(s)|..])
  {
    if s != [] && IsWs(s[|s| - 1]) {
      var init := s[..|s| - 1];
      TrimEndDropsWs(init);
      var k := |TrimEnd(s)|;
      assert forall i :: 0 <= i < |s| - 1 - k ==> s[k..][i] == init[k..][i];
    }
  }

  /** `trimStart` yields the empty string exactly when its input is all white space. */
  lemma {:induction false} TrimStartEmptyIff(s: string)
    ensures TrimStart(s) == [] <==> AllWs(s)
  {
    if s != [] && IsWs(s[0]) {
      TrimStartEmptyIff(s[1..]);
      assert forall i :: 1 <= i < |s| ==> s[i] == s[1..][i - 1];
    }
  }

  /** What `trim` keeps has no white space at either end. */
  lemma TrimTrimmed(s: string)
    ensures Trimmed(Trim(s))
  {
    var t := TrimStart(s);
    var r := TrimEnd(t);
    assert r != [] ==> r[0] == t[0];
  }

  /** `trim` keeps a contiguous part of its input and drops only white space
      before and after it. */
  lemma TrimInfix(s: string) returns (start: nat)
    ensures start + |Trim(s)| <= |s|
    ensures Trim(s) == s[start..start + |Trim(s)|]
    ensures AllWs(s[..start]) && AllWs(s[start + |Trim(s)|..])
  {
    var t := TrimStart(s);
    start := |s| - |t|;
    TrimStartDropsWs(s);
    var r := TrimEnd(t);
    TrimEndDropsWs(t);
    assert t == s[start..];
    assert r == t[..|r|];
    assert t[..|r|] == s[start..start + |r|];
    assert s[start + |r|..] == t[|r|..];
  }

  /** `trim` yields the empty string exactly when its input is all white space. */
  lemma TrimEmptyIff(s: string)
    ensures Trim(s) == [] <==> AllWs(s)
  {
    TrimStartEmptyIff(s);
    var t := TrimStart(s);
    TrimEndDropsWs(t);
    assert t[0..] == t;
  }

  /** A string without white space at either end is its own trim. */
  lemma TrimOfTrimmed(s: string)
    requires Trimmed(s)
    ensures Trim(s) == s
  {
  }

  /** `trim` is idempotent. */
  lemma TrimIdempotent(s: string)
    ensures Trim(Trim(s)) == Trim(s)
  {
    TrimTrimmed(s);
    TrimOfTrimmed(Trim(s));
  }

  /** A leading space does not change the trim. */
  lemma TrimLeadingSpace(s: string)
    ensures Trim(" " + s) == Trim(s)
  {
    assert (" " + s)[1..] == s;
  }

  /** A trailing space after a string without white space at either end is
      trimmed away. */
  lemma TrimTrailingSpace(s: string)
    requires Trimmed(s)
    ensures Trim(s + " ") == s
  {
    if s == [] {
      assert TrimStart(s + " ") == [];
    } else {
      assert (s + " ")[0] == s[0];
      assert TrimStart(s + " ") == s + " ";
      assert IsWs((s + " ")[|s|]);
      assert (s + " ")[..|s|] == s;
      assert TrimEnd(s) == s;
    }
  }

  // ------------------------------------------------- non-white-space text

  lemma {:induction false} NonWsAppend(a: string, b: string)
    ensures NonWs(a + b) == NonWs(a) + NonWs(b)
  {
    if a == [] {
      assert a + b == b;
    } else {
      assert (a + b)[0] == a[0];
      assert (a + b)[1..] == a[1..] + b;
      NonWsAppend(a[1..], b);
    }
  }

  /** Removing white space from the front keeps every other character. */
  lemma {:induction false} NonWsTrimStart(s: string)
    ensures NonWs(TrimStart(s)) == NonWs(s)
  {
    if s != [] && IsWs(s[0]) {
      NonWsTrimStart(s[1..]);
    }
  }

  /** Removing white space from the back keeps every other character. */
  lemma {:induction false} NonWsTrimEnd(s: string)
    ensures NonWs(TrimEnd(s)) == NonWs(s)
  {
    if s != [] && IsWs(s[|s| - 1]) {
      var init := s[..|s| - 1];
      assert s == init + [s[|s| - 1]];
      NonWsAppend(init, [s[|s| - 1]]);
      NonWsTrimEnd(init);
    }
  }

  /** `trim` keeps every non-white-space character, in order. */
  lemma NonWsTrim(s: string)
    ensures NonWs(Trim(s)) == NonWs(s)
  {
    NonWsTrimStart(s);
    NonWsTrimEnd(TrimStart(s));
  }

  /** Replacing white-space runs keeps every other character, in order. */
  lemma {:induction false} NonWsReplaceWsRuns(s: string)
    ensures NonWs(ReplaceWsRuns(s)) == NonWs(s)
    decreases |s|
  {
    if s == [] {
    } else if IsWs(s[0]) {
      var rest := TrimStart(s[1..]);
      NonWsReplaceWsRuns(rest);
      NonWsTrimStart(s[1..]);
      assert (" " + ReplaceWsRuns(rest))[1..] == ReplaceWsRuns(rest);
    } else {
      NonWsReplaceWsRuns(s[1..]);
      assert ([s[0]] + ReplaceWsRuns(s[1..]))[1..] == ReplaceWsRuns(s[1..]);
    }
  }

  /** A string has no non-white-space character exactly when it is all white space. */
  lemma {:induction false} NonWsEmptyIff(s: string)
    ensures NonWs(s) == [] <==> AllWs(s)
  {
    if s != [] {
      NonWsEmptyIff(s[1..]);
      assert forall i :: 1 <= i < |s| ==> s[i] == s[1..][i - 1];
    }
  }

  // ------------------------------------------------------ white-space runs

  /** After `replace(/\s+/g, " ")`, white space is single plain spaces. */
  lemma {:induction false} ReplaceWsRunsSquashed(s: string)
    ensures Squashed(ReplaceWsRuns(s))
    decreases |s|
  {
    if s == [] {
    } else if IsWs(s[0]) {
      var rest := TrimStart(s[1..]);
      ReplaceWsRunsSquashed(rest);
      SquashedCons(' ', ReplaceWsRuns(rest));
    } else {
      ReplaceWsRunsSquashed(s[1..]);
      SquashedCons(s[0], ReplaceWsRuns(s[1..]));
    }
  }

  /** A character in front of a squashed string keeps it squashed, unless it
      is white space other than a space or is followed by white space. */
  lemma SquashedCons(c: char, tail: string)
    requires Squashed(tail)
    requires IsWs(c) ==> c == ' ' && (tail == [] || !IsWs(tail[0]))
    ensures Squashed([c] + tail)
  {
    var r := [c] + tail;
    assert forall i :: 1 <= i < |r| ==> r[i] == tail[i - 1];
  }

  /** A string already in squashed form is left as it is. */
  lemma {:induction false} ReplaceWsRunsOfSquashed(s: string)
    requires Squashed(s)
    ensures ReplaceWsRuns(s) == s
    decreases |s|
  {
    if s != [] {
      var tail := s[1..];
      SquashedInfix(s, 1, |s|);
      ReplaceWsRunsOfSquashed(tail);
      assert s == [s[0]] + tail;
      if IsWs(s[0]) {
        assert tail != [] ==> tail[0] == s[1];
        assert TrimStart(tail) == tail;
      }
    }
  }

  /** Every part of a squashed string is squashed. */
  lemma SquashedInfix(s: string, i: nat, j: nat)
    requires i <= j <= |s| && Squashed(s)
    ensures Squashed(s[i..j])
  {
    var t := s[i..j];
    assert forall k :: 0 <= k < |t| ==> t[k] == s[i + k];
  }

  /** Trimming a squashed string leaves it squashed. */
  lemma SquashedTrim(s: string)
    requires Squashed(s)
    ensures Squashed(Trim(s))
  {
    var start := TrimInfix(s);
    SquashedInfix(s, start, start + |Trim(s)|);
  }

  /** A leading white-space run becomes one space. */
  lemma ReplaceWsRunsWsHead(s: string)
    requires s != [] && IsWs(s[0])
    ensures ReplaceWsRuns(s) == " " + ReplaceWsRuns(TrimStart(s))
  {
    assert TrimStart(s) == TrimStart(s[1..]);
  }

  /** Replacing white-space runs does not touch a leading word. */
  lemma {:induction false} ReplaceWsRunsWord(w: string, rest: string)
    requires NoWs(w)
    ensures ReplaceWsRuns(w + rest) == w + ReplaceWsRuns(rest)
  {
    if w == [] {
      assert w + rest == rest;
    } else {
      var tail := w[1..];
      assert NoWs(tail) by {
        assert forall i :: 0 <= i < |tail| ==> tail[i] == w[i + 1];
      }
      assert (w + rest)[1..] == tail + rest;
      ReplaceWsRunsWord(tail, rest);
      ConcatAssoc([w[0]], tail, ReplaceWsRuns(rest));
      assert [w[0]] + tail == w;
    }
  }

  // ------------------------------------------------------------------ join

  /** A join of several parts starts with the first part and the separator. */
  lemma JoinHead(parts: seq<string>, sep: string)
    requires |parts| >= 2
    ensures var j := Join(parts, sep);
      |parts[0] + sep| <= |j| && j[..|parts[0] + sep|] == parts[0] + sep
  {
    var j := Join(parts, sep);
    assert j == parts[0] + sep + Join(parts[1..], sep);
  }

  /** A join of one or more parts ends with the last part. */
  lemma {:induction false} JoinLast(parts: seq<string>, sep: string)
    requires parts != []
    ensures var j := Join(parts, sep); var last := parts[|parts| - 1];
      |last| <= |j| && j[|j| - |last|..] == last
  {
    if |parts| > 1 {
      JoinLast(parts[1..], sep);
      var rest := Join(parts[1..], sep);
      var j := Join(parts, sep);
      assert j == (parts[0] + sep) + rest;
      assert j[|j| - |rest|..] == rest;
    }
  }

  // ----------------------------------------------------------------- words

  lemma {:induction false} WordsAreWords(s: string)
    ensures forall i :: 0 <= i < |Words(s)| ==> IsWord(Words(s)[i])
    decreases |s|
  {
    var t := TrimStart(s);
    if t != [] {
      var w := TakeWord(t);
      assert w != [] by { assert t == [t[0]] + t[1..]; }
      WordsAreWords(t[|w|..]);
    }
  }

  lemma WordsTrimStart(s: string)
    ensures Words(TrimStart(s)) == Words(s)
  {
    assert TrimStart(TrimStart(s)) == TrimStart(s);
  }

  /** Words joined by single spaces have no white space at either end. */
  lemma {:induction false} JoinWordsTrimmed(words: seq<string>)
    requires forall i :: 0 <= i < |words| ==> IsWord(words[i])
    ensures Trimmed(Join(words, " "))
    ensures words != [] ==> Join(words, " ") != [] && Join(words, " ")[0] == words[0][0]
  {
    if |words| > 1 {
      JoinWordsTrimmed(words[1..]);
      var rest := Join(words[1..], " ");
      assert Join(words, " ") == words[0] + " " + rest;
    }
  }

  /** A non-empty suffix ends the way the whole string does. */
  lemma EndsInWsSuffix(s: string, k: nat)
    requires k < |s|
    ensures EndsInWs(s[k..]) == EndsInWs(s)
  {
    assert s[k..][|s| - k - 1] == s[|s| - 1];
  }

  /** A string starting with a word: that word, then the rest, both for the
      word list and for the replacement of white-space runs. */
  lemma WordsStep(t: string) returns (w: string)
    requires t != [] && !IsWs(t[0])
    ensures w == TakeWord(t) && w != [] && |w| <= |t|
    ensures Words(t) == [w] + Words(TrimStart(t[|w|..]))
    ensures ReplaceWsRuns(t) == w + ReplaceWsRuns(t[|w|..])
    ensures |w| < |t| ==> IsWs(t[|w|])
  {
    assert TrimStart(t) == t;
    w := TakeWord(t);
    assert w != [] by { assert t == [t[0]] + t[1..]; }
    assert Words(t) == [w] + Words(t[|w|..]);
    WordsTrimStart(t[|w|..]);
    assert t == w + t[|w|..];
    ReplaceWsRunsWord(w, t[|w|..]);
  }

  /** What `ReplaceWsRuns` does to a string that does not start with white
      space: its words joined by single spaces, plus one space when the string
      ends in white space. */
  predicate JoinsWords(t: string) {
    ReplaceWsRuns(t) == Join(Words(t), " ") + (if EndsInWs(t) then " " else "")
  }

  /** A string that is one word. */
  lemma JoinsWordsOne(t: string)
    requires t != [] && !IsWs(t[0]) && |TakeWord(t)| == |t|
    ensures JoinsWords(t)
  {
    var w := WordsStep(t);
    assert Words(TrimStart(t[|w|..])) == [];
    assert t == w;
  }

  /** A string that is one word followed by white space. */
  lemma JoinsWordsTrailing(t: string)
    requires t != [] && !IsWs(t[0]) && |TakeWord(t)| < |t|
    requires TrimStart(t[|TakeWord(t)|..]) == []
    ensures JoinsWords(t)
  {
    var w := WordsStep(t);
    var rest := t[|w|..];
    EndsInWsSuffix(t, |w|);
    ReplaceWsRunsWsHead(rest);
    TrimStartEmptyIff(rest);
    assert IsWs(rest[|rest| - 1]);
    assert Words(TrimStart(rest)) == [];
    assert ReplaceWsRuns(rest) == " ";
    assert Words(t) == [w];
  }

  /** A word, white space, then a string that itself joins its words. */
  lemma JoinsWordsMore(t: string)
    requires t != [] && !IsWs(t[0]) && |TakeWord(t)| < |t|
    requires TrimStart(t[|TakeWord(t)|..]) != []
    requires JoinsWords(TrimStart(t[|TakeWord(t)|..]))
    ensures JoinsWords(t)
  {
    var w := WordsStep(t);
    var rest := t[|w|..];
    var u := TrimStart(rest);
    EndsInWsSuffix(t, |w|);
    EndsInWsSuffix(rest, |rest| - |u|);
    ReplaceWsRunsWsHead(rest);
    var _ := WordsStep(u);
    var ws := [w] + Words(u);
    assert |ws| >= 2 && ws[0] == w && ws[1..] == Words(u);
    var ju := Join(Words(u), " ");
    var pad: string := if EndsInWs(u) then " " else "";
    assert Join(ws, " ") == w + " " + ju;
    ConcatAssoc(w, " ", ju + pad);
    ConcatAssoc(w + " ", ju, pad);
  }

  /** For a string that does not start with white space, replacing white-space
      runs gives its words joined by single spaces, plus one space when the
      string ends in white space. */
  lemma {:induction false} ReplaceWsRunsIsJoin(t: string)
    requires t == [] || !IsWs(t[0])
    ensures JoinsWords(t)
    decreases |t|
  {
    if t == [] {
      assert Words(t) == [];
    } else {
      var w := TakeWord(t);
      assert w != [] by { assert t == [t[0]] + t[1..]; }
      if |w| == |t| {
        JoinsWordsOne(t);
      } else {
        var u := TrimStart(t[|w|..]);
        if u == [] {
          JoinsWordsTrailing(t);
        } else {
          ReplaceWsRunsIsJoin(u);
          JoinsWordsMore(t);
        }
      }
    }
  }

  /** Replacing white-space runs, for any string: one space for a leading
      run, the words joined by single spaces, and one space for a trailing run
      that is not also the leading one. */
  lemma ReplaceWsRunsIsJoinAll(s: string)
    ensures ReplaceWsRuns(s) ==
      (if s != [] && IsWs(s[0]) then " " else "")
      + Join(Words(s), " ")
      + (if EndsInWs(s) && !AllWs(s) then " " else "")
  {
    var t := TrimStart(s);
    ReplaceWsRunsIsJoin(t);
    WordsTrimStart(s);
    TrimStartEmptyIff(s);
    var pad: string := if EndsInWs(t) then " " else "";
    assert pad == (if EndsInWs(s) && !AllWs(s) then " " else "") by {
      if t != [] {
        EndsInWsSuffix(s, |s| - |t|);
      }
    }
    if s != [] && IsWs(s[0]) {
      ReplaceWsRunsWsHead(s);
      ConcatAssoc(" ", Join(Words(s), " "), pad);
    } else {
      assert "" + Join(Words(s), " ") == Join(Words(s), " ");
    }
  }
}
