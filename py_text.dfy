/**
  The three Python string operations the message evaluator (evaluation.py) relies on:
  `needle in text` (substring search, where the empty needle is always found),
  `text.lower()` restricted to ASCII letters, and `text.split()` with no separator (runs of
  white space separate words; leading and trailing white space yield no empty word).
*/
module PyText {

  /** The characters `str.split()` treats as white space (those `str.isspace()` accepts). */
  predicate IsSpace(c: char)
  {
    ('\t' <= c <= '\r') || ('\U{1C}' <= c <= '\U{1F}') || c == ' ' || c == '\U{85}' || c == '\U{A0}'
    || c == '\U{1680}' || ('\U{2000}' <= c <= '\U{200A}') || c == '\U{2028}' || c == '\U{2029}'
    || c == '\U{202F}' || c == '\U{205F}' || c == '\U{3000}'
  }

  // ----- substring search -----

  /** `p` is a prefix of `s`. */
  predicate StartsWith(s: string, p: string)
  {
    |p| <= |s| && s[..|p|] == p
  }

  /** `p in s`: some suffix of `s` starts with `p`. */
  predicate Contains(s: string, p: string)
    decreases |s|
  {
    StartsWith(s, p) || (s != [] && Contains(s[1..], p))
  }

  /** `p` occurs in `s` at position `i`. */
  predicate OccursAt(s: string, p: string, i: int)
  {
    0 <= i <= |s| - |p| && s[i..i + |p|] == p
  }

  /** The search finds `p` exactly when `p` occurs at some position of `s`. */
  lemma {:induction false} ContainsIffOccurs(s: string, p: string)
    ensures Contains(s, p) <==> exists i :: OccursAt(s, p, i)
    decreases |s|
  {
    if StartsWith(s, p) {
      assert OccursAt(s, p, 0);
    } else if s != [] {
      ContainsIffOccurs(s[1..], p);
      if Contains(s[1..], p) {
        var i :| OccursAt(s[1..], p, i);
        assert s[i + 1..i + 1 + |p|] == s[1..][i..i + |p|];
        assert OccursAt(s, p, i + 1);
      }
      if exists i :: OccursAt(s, p, i) {
        var i :| OccursAt(s, p, i);
        assert i != 0;
        assert s[1..][i - 1..i - 1 + |p|] == s[i..i + |p|];
        assert OccursAt(s[1..], p, i - 1);
      }
    }
  }

  /** The empty text is found in every text. */
  lemma ContainsEmpty(s: string)
    ensures Contains(s, "")
  {
  }

  /** A text contains every part of itself. */
  lemma {:induction false} ContainsPart(a: string, p: string, b: string)
    ensures Contains(a + p + b, p)
  {
    var s := a + p + b;
    assert s[|a|..|a| + |p|] == p;
    assert OccursAt(s, p, |a|);
    ContainsIffOccurs(s, p);
  }

  // ----- ASCII lower case -----

  function LowerChar(c: char): (l: char)
    ensures 'A' <= c <= 'Z' ==> l as int == c as int + 32
    ensures !('A' <= c <= 'Z') ==> l == c
  {
    if 'A' <= c <= 'Z' then (c as int + 32) as char else c
  }

  /** `text.lower()` on ASCII letters; every other character is kept. */
  function Lower(s: string): (r: string)
    ensures |r| == |s|
    ensures forall i :: 0 <= i < |s| ==> r[i] == LowerChar(s[i])
  {
    if s == [] then [] else [LowerChar(s[0])] + Lower(s[1..])
  }

  /** Lowering twice is lowering once, and no upper-case ASCII letter survives. */
  lemma LowerIdempotent(s: string)
    ensures Lower(Lower(s)) == Lower(s)
    ensures forall i :: 0 <= i < |s| ==> !('A' <= Lower(s)[i] <= 'Z')
  {
  }

  // ----- splitting into words -----

  /** The length of the leading run of white space. */
  function SpaceRun(s: string): (n: nat)
    ensures n <= |s|
    ensures forall i :: 0 <= i < n ==> IsSpace(s[i])
    ensures n == |s| || !IsSpace(s[n])
  {
    if s != [] && IsSpace(s[0]) then 1 + SpaceRun(s[1..]) else 0
  }

  /** The length of the leading run of non-white-space characters. */
  function WordRun(s: string): (n: nat)
    ensures n <= |s|
    ensures forall i :: 0 <= i < n ==> !IsSpace(s[i])
    ensures n == |s| || IsSpace(s[n])
  {
    if s != [] && !IsSpace(s[0]) then 1 + WordRun(s[1..]) else 0
  }

  /** A word as `split()` yields it: non-empty and free of white space. */
  predicate IsWord(w: string)
  {
    w != [] && forall i :: 0 <= i < |w| ==> !IsSpace(w[i])
  }

  /** `text.split()`. */
  function Words(s: string): (ws: seq<string>)
    ensures forall i :: 0 <= i < |ws| ==> IsWord(ws[i])
    decreases |s|
  {
    var t := s[SpaceRun(s)..];
    if t == [] then []
    else
      var n := WordRun(t);
      [t[..n]] + Words(t[n..])
  }

  /** `len(text.split())` */
  function WordCount(s: string): nat
  {
    |Words(s)|
  }

  /** `" ".join(words)` */
  function Join(ws: seq<string>): string
  {
    if ws == [] then ""
    else if |ws| == 1 then ws[0]
    else ws[0] + " " + Join(ws[1..])
  }

  lemma {:induction false} SpaceRunOfWordStart(w: string, rest: string)
    requires IsWord(w)
    ensures SpaceRun(w + rest) == 0
  {
    assert (w + rest)[0] == w[0];
  }

  lemma {:induction false} WordRunOfWord(w: string, rest: string)
    requires IsWord(w)
    requires rest == [] || IsSpace(rest[0])
    ensures WordRun(w + rest) == |w|
    decreases |w|
  {
    assert (w + rest)[0] == w[0];
    assert (w + rest)[1..] == w[1..] + rest;
    if |w| > 1 {
      WordRunOfWord(w[1..], rest);
    } else {
      assert w[1..] + rest == rest;
    }
  }

  /** A word followed by white space or nothing is split off as the first word. */
  lemma WordsOfWordThen(w: string, rest: string)
    requires IsWord(w)
    requires rest == [] || IsSpace(rest[0])
    ensures Words(w + rest) == [w] + Words(rest)
  {
    SpaceRunOfWordStart(w, rest);
    WordRunOfWord(w, rest);
    var s := w + rest;
    assert s[0..] == s;
    assert s[..|w|] == w;
    assert s[|w|..] == rest;
  }

  /** A single leading space changes nothing. */
  lemma WordsOfSpaceThen(rest: string)
    ensures Words(" " + rest) == Words(rest)
  {
    var s := " " + rest;
    assert s[1..] == rest;
    assert SpaceRun(s) == 1 + SpaceRun(rest);
    assert s[SpaceRun(s)..] == rest[SpaceRun(rest)..];
  }

  /** Splitting undoes joining with single spaces: `" ".join(ws).split() == ws` for words. */
  lemma {:induction false} SplitJoin(ws: seq<string>)
    requires forall i :: 0 <= i < |ws| ==> IsWord(ws[i])
    ensures Words(Join(ws)) == ws
  {
    if ws == [] {
      assert Words("") == [];
    } else if |ws| == 1 {
      WordsOfWordThen(ws[0], "");
      assert ws[0] + "" == ws[0];
      assert Words("") == [];
    } else {
      var rest := Join(ws[1..]);
      assert ws[0] + " " + rest == ws[0] + (" " + rest);
      WordsOfWordThen(ws[0], " " + rest);
      WordsOfSpaceThen(rest);
      SplitJoin(ws[1..]);
      assert ws == [ws[0]] + ws[1..];
    }
  }
}
