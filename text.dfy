/**
 * Text handling of the trivia code: Python's whitespace class (what `\s` in a `str`
 * regular expression and `str.strip()` treat as whitespace), the normalisation
 * `re.sub(r'\s+', ' ', q).strip()` applied to a question before it is hashed, and
 * the prefix slice `s[:n]`.
 */
module Text {

  /**
   * Library functions the model does not open up: `urllib.parse.unquote`, `html.unescape`,
   * `str.title` and the hex digest of `hashlib.sha256` over the UTF-8 bytes of a text.
   */
  datatype Codec = Codec(
    unquote: string -> string,
    unescape: string -> string,
    title: string -> string,
    sha256: string -> string)

  /** `generate_question_id` (facts.py:214-216, quiz.py:61-63). */
  function QuestionId(codec: Codec, text: string): string {
    codec.sha256(text)
  }

  /** `c.isspace()` in Python 3: the 29 code points `\s` matches in a `str` pattern. */
  predicate IsSpace(c: char) {
    var n := c as int;
    || (0x09 <= n <= 0x0D) || (0x1C <= n <= 0x20)
    || n == 0x85 || n == 0xA0 || n == 0x1680
    || (0x2000 <= n <= 0x200A)
    || n == 0x2028 || n == 0x2029 || n == 0x202F || n == 0x205F || n == 0x3000
  }

  /** The characters of `s` that are not whitespace, in order. */
  function NonSpace(s: string): string {
    if s == [] then []
    else if IsSpace(s[0]) then NonSpace(s[1..])
    else [s[0]] + NonSpace(s[1..])
  }

  /** `s.lstrip()`. */
  function LStrip(s: string): (r: string)
    ensures |r| <= |s| && r == s[|s| - |r|..]
    ensures r == [] || !IsSpace(r[0])
    ensures forall i :: 0 <= i < |s| - |r| ==> IsSpace(s[i])
  {
    if s != [] && IsSpace(s[0]) then LStrip(s[1..]) else s
  }

  /** `s.rstrip()`. */
  function RStrip(s: string): (r: string)
    ensures |r| <= |s| && r == s[..|r|]
    ensures r == [] || !IsSpace(r[|r| - 1])
    ensures forall i :: |r| <= i < |s| ==> IsSpace(s[i])
  {
    if s != [] && IsSpace(s[|s| - 1]) then RStrip(s[..|s| - 1]) else s
  }

  /** `s.strip()`. */
  function Strip(s: string): string {
    LStrip(RStrip(s))
  }

  /** `re.sub(r'\s+', ' ', s)`: every maximal run of whitespace becomes one blank. */
  function Collapse(s: string): string
    decreases |s|
  {
    if s == [] then []
    else if IsSpace(s[0]) then [' '] + Collapse(LStrip(s[1..]))
    else [s[0]] + Collapse(s[1..])
  }

  /** The question text a trivia id is computed from (facts.py:274). */
  function Normalize(q: string): string {
    Strip(Collapse(q))
  }

  /** The only whitespace is single blanks. */
  ghost predicate Canonical(s: string) {
    && (forall i :: 0 <= i < |s| && IsSpace(s[i]) ==> s[i] == ' ')
    && (forall i :: 0 <= i < |s| - 1 ==> !(IsSpace(s[i]) && IsSpace(s[i + 1])))
  }

  /** No leading and no trailing whitespace. */
  ghost predicate Trimmed(s: string) {
    s == [] || (!IsSpace(s[0]) && !IsSpace(s[|s| - 1]))
  }

  lemma {:induction false} CollapseFirst(s: string)
    ensures |Collapse(s)| == 0 <==> |s| == 0
    ensures s != [] ==> (IsSpace(Collapse(s)[0]) <==> IsSpace(s[0]))
  {
  }

  /** A character in front of canonical text keeps it canonical unless it starts a run. */
  lemma CanonicalCons(c: char, t: string)
    requires Canonical(t)
    requires IsSpace(c) ==> c == ' ' && (t == [] || !IsSpace(t[0]))
    ensures Canonical([c] + t)
  {
    var r := [c] + t;
    assert forall i :: 1 <= i < |r| ==> r[i] == t[i - 1];
  }

  /** The collapsed text has no whitespace runs and no whitespace except blanks. */
  lemma {:induction false} CollapseCanonical(s: string)
    ensures Canonical(Collapse(s))
    decreases |s|
  {
    if s == [] {
    } else if IsSpace(s[0]) {
      var rest := LStrip(s[1..]);
      CollapseCanonical(rest);
      CollapseFirst(rest);
      CanonicalCons(' ', Collapse(rest));
    } else {
      CollapseCanonical(s[1..]);
      CanonicalCons(s[0], Collapse(s[1..]));
    }
  }

  /** Collapsing text that is already canonical changes nothing. */
  lemma {:induction false} CollapseOfCanonical(s: string)
    requires Canonical(s)
    ensures Collapse(s) == s
    decreases |s|
  {
    if s != [] {
      assert Canonical(s[1..]);
      if IsSpace(s[0]) {
        assert s[1..] == [] || !IsSpace(s[1]);
        assert LStrip(s[1..]) == s[1..];
        CollapseOfCanonical(s[1..]);
      } else {
        CollapseOfCanonical(s[1..]);
      }
    }
  }

  /** A slice of canonical text is canonical. */
  lemma CanonicalSlice(s: string, lo: nat, hi: nat)
    requires Canonical(s) && lo <= hi <= |s|
    ensures Canonical(s[lo..hi])
  {
    var t := s[lo..hi];
    assert forall i :: 0 <= i < |t| ==> t[i] == s[lo + i];
  }

  /** Stripping leaves no whitespace at either end. */
  lemma StripTrimmed(s: string)
    ensures Trimmed(Strip(s))
  {
    var r := RStrip(s);
    var l := LStrip(r);
    if l != [] {
      assert l[|l| - 1] == r[|r| - 1];
    }
  }

  /** Stripping keeps a contiguous slice, so canonical text stays canonical. */
  lemma StripCanonical(s: string)
    requires Canonical(s)
    ensures Canonical(Strip(s)) && Trimmed(Strip(s))
  {
    var r := RStrip(s);
    var l := LStrip(r);
    assert l == s[|r| - |l|..|r|];
    CanonicalSlice(s, |r| - |l|, |r|);
    StripTrimmed(s);
  }

  /** Stripping text without leading or trailing whitespace changes nothing. */
  lemma StripOfTrimmed(s: string)
    requires Trimmed(s)
    ensures Strip(s) == s
  {
  }

  /**
   * The normalised question has no leading or trailing whitespace, no two consecutive
   * whitespace characters, and no whitespace other than the blank.
   */
  lemma NormalizeShape(q: string)
    ensures Canonical(Normalize(q)) && Trimmed(Normalize(q))
  {
    CollapseCanonical(q);
    StripCanonical(Collapse(q));
  }

  /** Normalising twice gives the same text as normalising once. */
  lemma NormalizeIdempotent(q: string)
    ensures Normalize(Normalize(q)) == Normalize(q)
  {
    var n := Normalize(q);
    NormalizeShape(q);
    CollapseOfCanonical(n);
    StripOfTrimmed(n);
  }

  lemma {:induction false} NonSpaceAppend(a: string, b: string)
    ensures NonSpace(a + b) == NonSpace(a) + NonSpace(b)
  {
    if a == [] {
      assert a + b == b;
    } else {
      assert (a + b)[0] == a[0] && (a + b)[1..] == a[1..] + b;
      NonSpaceAppend(a[1..], b);
    }
  }

  lemma {:induction false} NonSpaceOfSpaces(s: string)
    requires forall i :: 0 <= i < |s| ==> IsSpace(s[i])
    ensures NonSpace(s) == []
  {
    if s != [] {
      NonSpaceOfSpaces(s[1..]);
    }
  }

  /** Whitespace on either side of a text adds no non-whitespace character. */
  lemma NonSpaceAround(w: string, t: string)
    requires forall i :: 0 <= i < |w| ==> IsSpace(w[i])
    ensures NonSpace(w + t) == NonSpace(t) && NonSpace(t + w) == NonSpace(t)
  {
    NonSpaceAppend(w, t);
    NonSpaceAppend(t, w);
    NonSpaceOfSpaces(w);
  }

  lemma NonSpaceRStrip(s: string)
    ensures NonSpace(RStrip(s)) == NonSpace(s)
  {
    var r := RStrip(s);
    assert s == r + s[|r|..];
    NonSpaceAround(s[|r|..], r);
  }

  lemma NonSpaceLStrip(s: string)
    ensures NonSpace(LStrip(s)) == NonSpace(s)
  {
    var l := LStrip(s);
    assert s == s[..|s| - |l|] + l;
    NonSpaceAround(s[..|s| - |l|], l);
  }

  lemma NonSpaceStrip(s: string)
    ensures NonSpace(Strip(s)) == NonSpace(s)
  {
    NonSpaceRStrip(s);
    NonSpaceLStrip(RStrip(s));
  }

  lemma {:induction false} NonSpaceCollapse(s: string)
    ensures NonSpace(Collapse(s)) == NonSpace(s)
    decreases |s|
  {
    if s != [] {
      if IsSpace(s[0]) {
        var rest := s[1..];
        var l := LStrip(rest);
        NonSpaceCollapse(l);
        assert rest == rest[..|rest| - |l|] + l;
        NonSpaceAppend(rest[..|rest| - |l|], l);
        NonSpaceOfSpaces(rest[..|rest| - |l|]);
        NonSpaceAppend([' '], Collapse(l));
      } else {
        NonSpaceCollapse(s[1..]);
        NonSpaceAppend([s[0]], Collapse(s[1..]));
      }
    }
  }

  /** Normalisation only touches whitespace: every other character survives, in order. */
  lemma NormalizeKeepsText(q: string)
    ensures NonSpace(Normalize(q)) == NonSpace(q)
  {
    NonSpaceStrip(Collapse(q));
    NonSpaceCollapse(q);
  }

  /** The leading run of non-whitespace characters of `s`: the first word `s.split()` yields. */
  function Word(s: string): (w: string)
    ensures |w| <= |s| && w == s[..|w|]
    ensures forall i :: 0 <= i < |w| ==> !IsSpace(w[i])
    ensures |w| < |s| ==> IsSpace(s[|w|])
    ensures s != [] && !IsSpace(s[0]) ==> |w| > 0
  {
    if s == [] || IsSpace(s[0]) then [] else [s[0]] + Word(s[1..])
  }

  /** A word of `split()`: non-empty and free of whitespace. */
  ghost predicate IsWord(w: string) {
    w != [] && forall j :: 0 <= j < |w| ==> !IsSpace(w[j])
  }

  /** `s.split()`: the maximal runs of non-whitespace characters, in order. */
  function Words(s: string): (ws: seq<string>)
    ensures forall i :: 0 <= i < |ws| ==> IsWord(ws[i])
    decreases |s|
  {
    if s == [] then []
    else if IsSpace(s[0]) then Words(s[1..])
    else
      var w := Word(s);
      assert IsWord(w);
      [w] + Words(s[|w|..])
  }

  /** `' '.join(ws)`. */
  function Join(ws: seq<string>): string {
    if ws == [] then []
    else if |ws| == 1 then ws[0]
    else ws[0] + [' '] + Join(ws[1..])
  }

  /** Whitespace in front of text that starts with a non-space character is all `lstrip` removes. */
  lemma {:induction false} LStripRun(w: string, b: string)
    requires forall i :: 0 <= i < |w| ==> IsSpace(w[i])
    requires b == [] || !IsSpace(b[0])
    ensures LStrip(w + b) == b
    decreases |w|
  {
    if w == [] {
      assert w + b == b;
    } else {
      assert (w + b)[1..] == w[1..] + b;
      LStripRun(w[1..], b);
    }
  }

  /** A whitespace run before a non-space character, or before the end, becomes exactly one blank. */
  lemma CollapseRun(w: string, b: string)
    requires w != [] && forall i :: 0 <= i < |w| ==> IsSpace(w[i])
    requires b == [] || !IsSpace(b[0])
    ensures Collapse(w + b) == [' '] + Collapse(b)
  {
    assert (w + b)[1..] == w[1..] + b;
    LStripRun(w[1..], b);
  }

  /** A run of non-whitespace characters passes through `Collapse` unchanged. */
  lemma {:induction false} CollapseWord(w: string, rest: string)
    requires forall i :: 0 <= i < |w| ==> !IsSpace(w[i])
    ensures Collapse(w + rest) == w + Collapse(rest)
    decreases |w|
  {
    if w == [] {
      assert w + rest == rest;
    } else {
      assert (w + rest)[1..] == w[1..] + rest;
      CollapseWord(w[1..], rest);
      assert [w[0]] + (w[1..] + Collapse(rest)) == w + Collapse(rest);
    }
  }

  /** Trailing whitespace of a concatenation comes from its second part unless that part is all whitespace. */
  lemma {:induction false} RStripAppend(a: string, b: string)
    ensures RStrip(a + b) == if RStrip(b) == [] then RStrip(a) else a + RStrip(b)
    decreases |b|
  {
    if b == [] {
      assert a + b == a;
    } else if IsSpace(b[|b| - 1]) {
      assert (a + b)[..|a + b| - 1] == a + b[..|b| - 1];
      RStripAppend(a, b[..|b| - 1]);
    }
  }

  /** Leading whitespace does not change the words. */
  lemma {:induction false} WordsLStrip(s: string)
    ensures Words(s) == Words(LStrip(s))
    decreases |s|
  {
    if s != [] && IsSpace(s[0]) {
      WordsLStrip(s[1..]);
    }
  }

  /** Text that starts with a non-space character splits into its first word and the words after it. */
  lemma WordsStep(t: string)
    requires t != [] && !IsSpace(t[0])
    ensures Words(t) == [Word(t)] + Words(t[|Word(t)|..])
  {
  }

  /** A whitespace run at the front becomes one blank before the collapsed remainder. */
  lemma CollapseSpaceLead(s: string)
    requires s != [] && IsSpace(s[0])
    ensures Collapse(s) == [' '] + Collapse(LStrip(s))
  {
    assert LStrip(s[1..]) == LStrip(s);
  }

  /** Joining a word in front of a non-empty list puts one blank between. */
  lemma JoinCons(w: string, ws: seq<string>)
    requires ws != []
    ensures Join([w] + ws) == w + ([' '] + Join(ws))
  {
    assert ([w] + ws)[1..] == ws;
    assert w + [' '] + Join(ws) == w + ([' '] + Join(ws));
  }

  /** A list whose first word is non-empty joins to non-empty text. */
  lemma JoinNonEmpty(ws: seq<string>)
    requires ws != [] && ws[0] != []
    ensures Join(ws) != []
  {
    if |ws| > 1 {
      assert |Join(ws)| >= |ws[0]|;
    }
  }

  /** Text in front of a part that is not all whitespace survives `rstrip`. */
  lemma RStripBefore(a: string, b: string)
    requires RStrip(b) != []
    ensures RStrip(a + b) == a + RStrip(b)
  {
    RStripAppend(a, b);
  }

  /** Text that does not start with whitespace is its own `lstrip`. */
  lemma LStripKeeps(s: string)
    requires s == [] || !IsSpace(s[0])
    ensures LStrip(s) == s
  {
  }

  /** Text that does not end in whitespace is its own `rstrip`. */
  lemma RStripKeeps(s: string)
    requires s == [] || !IsSpace(s[|s| - 1])
    ensures RStrip(s) == s
  {
  }

  /** Text made only of whitespace collapses to at most one blank, which `rstrip` removes. */
  lemma AllSpaceCollapse(s: string)
    requires LStrip(s) == []
    ensures RStrip(Collapse(s)) == []
  {
    if s != [] {
      CollapseSpaceLead(s);
      assert Collapse(s) == [' '];
    }
  }

  /** A blank in front of text that does not start with whitespace is removed by `strip`. */
  lemma StripBlankFront(c: string)
    requires c == [] || !IsSpace(c[0])
    ensures Strip([' '] + c) == Strip(c)
  {
    var r := RStrip(c);
    assert r == [] || r[0] == c[0];
    if r != [] {
      RStripBefore([' '], c);
      LStripRun([' '], r);
    } else {
      RStripAppend([' '], c);
      assert RStrip([' ']) == [];
    }
  }

  /** Leading whitespace does not change the normal form. */
  lemma NormalizeLStrip(q: string)
    ensures Normalize(q) == Normalize(LStrip(q))
  {
    var t := LStrip(q);
    if q != [] && IsSpace(q[0]) {
      CollapseSpaceLead(q);
      CollapseFirst(t);
      StripBlankFront(Collapse(t));
    }
  }

  /** For text that does not start with whitespace, the collapsed text less its trailing blank is the joined words. */
  lemma {:induction false} RStripCollapseWords(t: string)
    requires t == [] || !IsSpace(t[0])
    ensures RStrip(Collapse(t)) == Join(Words(t))
    decreases |t|
  {
    if t != [] {
      var w := Word(t);
      var rest := t[|w|..];
      assert t == w + rest;
      WordsStep(t);
      CollapseWord(w, rest);
      var u := LStrip(rest);
      WordsLStrip(rest);
      if u == [] {
        assert Words(rest) == [];
        assert Join(Words(t)) == w;
        AllSpaceCollapse(rest);
        RStripAppend(w, Collapse(rest));
        RStripKeeps(w);
      } else {
        CollapseSpaceLead(rest);
        RStripCollapseWords(u);
        var ws := Words(u);
        WordsStep(u);
        assert ws[0] == Word(u) != [];
        JoinNonEmpty(ws);
        JoinCons(w, ws);
        var c := Collapse(u);
        var r := RStrip(c);
        assert r == Join(ws) && r != [];
        RStripBefore([' '], c);
        RStripBefore(w, [' '] + c);
        assert Collapse(t) == w + ([' '] + c);
        assert RStrip(Collapse(t)) == w + ([' '] + r);
        assert Words(t) == [w] + ws;
        assert Join(Words(t)) == w + ([' '] + r);
      }
    }
  }

  /**
   * Normalisation is Python's `' '.join(q.split())`: the words of `q`, in order, separated
   * by single blanks.
   */
  lemma NormalizeIsJoinedWords(q: string)
    ensures Normalize(q) == Join(Words(q))
  {
    var t := LStrip(q);
    var r := RStrip(Collapse(t));
    RStripCollapseWords(t);
    WordsLStrip(q);
    NormalizeLStrip(q);
    CollapseFirst(t);
    assert r == [] || r[0] == Collapse(t)[0];
    LStripKeeps(r);
  }

  /** Questions with the same words, whatever the whitespace between them, have the same normal form. */
  lemma SameWordsSameNormalForm(a: string, b: string)
    requires Words(a) == Words(b)
    ensures Normalize(a) == Normalize(b)
  {
    NormalizeIsJoinedWords(a);
    NormalizeIsJoinedWords(b);
  }

  /** `s[:n]`: the first `n` characters, or all of `s` when it is shorter. */
  function Take(s: string, n: nat): (r: string)
    ensures |r| == if |s| <= n then |s| else n
    ensures |r| <= n && r == s[..|r|]
  {
    if |s| <= n then s else s[..n]
  }
}
