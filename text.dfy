/**
 * The string operations the keyword classifiers and the command-line validation rely on:
 * Python's `str.lower`, `str.upper` and `str.strip` (restricted as documented on each
 * function), the substring test `word in text`, and the generator-expression count
 * `sum(1 for word in words if word in text)`.
 */
module Text {

  /** Python's `str.lower` on one character, restricted to ASCII: 'A'..'Z' become 'a'..'z'. */
  function LowerChar(c: char): (d: char)
    ensures 'A' <= c <= 'Z' ==> 'a' <= d <= 'z' && d as int == c as int + 32
    ensures !('A' <= c <= 'Z') ==> d == c
  {
    if 'A' <= c <= 'Z' then (c as int + 32) as char else c
  }

  /** Python's `str.upper` on one character, restricted to ASCII: 'a'..'z' become 'A'..'Z'. */
  function UpperChar(c: char): (d: char)
    ensures 'a' <= c <= 'z' ==> 'A' <= d <= 'Z' && d as int == c as int - 32
    ensures !('a' <= c <= 'z') ==> d == c
  {
    if 'a' <= c <= 'z' then (c as int - 32) as char else c
  }

  function ToLower(s: string): (r: string)
    ensures |r| == |s|
    ensures forall i :: 0 <= i < |s| ==> r[i] == LowerChar(s[i])
  {
    seq(|s|, i requires 0 <= i < |s| => LowerChar(s[i]))
  }

  function ToUpper(s: string): (r: string)
    ensures |r| == |s|
    ensures forall i :: 0 <= i < |s| ==> r[i] == UpperChar(s[i])
  {
    seq(|s|, i requires 0 <= i < |s| => UpperChar(s[i]))
  }

  /** A lower-cased string has no upper-case ASCII letter left, so lower-casing it again changes nothing. */
  lemma ToLowerIdempotent(s: string)
    ensures forall i :: 0 <= i < |s| ==> !('A' <= ToLower(s)[i] <= 'Z')
    ensures ToLower(ToLower(s)) == ToLower(s)
  {
  }

  /**
   * The characters Python's `str.strip()` removes: those for which `str.isspace` holds
   * (Unicode white space and the four ASCII separators U+001C..U+001F).
   */
  predicate IsSpace(c: char) {
    || '\t' <= c <= '\r'
    || '\U{1C}' <= c <= ' '
    || c == '\U{85}' || c == '\U{A0}' || c == '\U{1680}'
    || '\U{2000}' <= c <= '\U{200A}'
    || c == '\U{2028}' || c == '\U{2029}' || c == '\U{202F}' || c == '\U{205F}' || c == '\U{3000}'
  }

  function TrimStart(s: string): (r: string)
    ensures |r| <= |s| && r == s[|s| - |r|..]
    ensures r == [] || !IsSpace(r[0])
    ensures forall i :: 0 <= i < |s| - |r| ==> IsSpace(s[i])
    ensures r == [] <==> forall i :: 0 <= i < |s| ==> IsSpace(s[i])
  {
    if |s| > 0 && IsSpace(s[0]) then TrimStart(s[1..]) else s
  }

  function TrimEnd(s: string): (r: string)
    ensures |r| <= |s| && r == s[..|r|]
    ensures r == [] || !IsSpace(r[|r| - 1])
    ensures forall i :: |r| <= i < |s| ==> IsSpace(s[i])
    ensures r == [] <==> forall i :: 0 <= i < |s| ==> IsSpace(s[i])
  {
    if |s| > 0 && IsSpace(s[|s| - 1]) then TrimEnd(s[..|s| - 1]) else s
  }

  /** Python's `str.strip()`: white space removed from both ends, nothing else touched. */
  function Strip(s: string): (r: string)
    ensures exists lo ::
              && OccursAt(s, r, lo)
              && (forall i :: 0 <= i < lo ==> IsSpace(s[i]))
              && (forall i :: lo + |r| <= i < |s| ==> IsSpace(s[i]))
    ensures r == [] || (!IsSpace(r[0]) && !IsSpace(r[|r| - 1]))
    ensures r == [] <==> forall i :: 0 <= i < |s| ==> IsSpace(s[i])
  {
    var t := TrimStart(s);
    var r := TrimEnd(t);
    assert r == s[|s| - |t|..][..|r|] == s[|s| - |t|..|s| - |t| + |r|];
    assert OccursAt(s, r, |s| - |t|);
    r
  }

  /** True when `word` occurs in `text` starting at position `i`. */
  predicate OccursAt(text: string, word: string, i: int) {
    0 <= i && i + |word| <= |text| && text[i..i + |word|] == word
  }

  /** True when `word` occurs at the very start of `s`. */
  predicate StartsWith(s: string, word: string) {
    |word| <= |s| && s[..|word|] == word
  }

  /** Python's `word in text`: `word` occurs somewhere in `text` as a run of consecutive characters. */
  predicate Contains(text: string, word: string)
    ensures Contains(text, word) ==> |word| <= |text|
    ensures word == [] ==> Contains(text, word)
    decreases |text|
  {
    StartsWith(text, word) || (|text| > 0 && Contains(text[1..], word))
  }

  /** The recursive search agrees with the positional definition of a substring, in both directions. */
  lemma {:induction false} ContainsIff(text: string, word: string)
    ensures Contains(text, word) <==> exists i :: OccursAt(text, word, i)
    decreases |text|
  {
    if StartsWith(text, word) {
      assert OccursAt(text, word, 0);
    } else if |text| > 0 {
      ContainsIff(text[1..], word);
      if Contains(text[1..], word) {
        var i :| OccursAt(text[1..], word, i);
        assert text[i + 1..i + 1 + |word|] == text[1..][i..i + |word|];
        assert OccursAt(text, word, i + 1);
      } else {
        forall i | 0 < i && i + |word| <= |text| ensures !OccursAt(text, word, i) {
          assert text[i..i + |word|] == text[1..][i - 1..i - 1 + |word|];
          assert !OccursAt(text[1..], word, i - 1);
        }
      }
    }
  }

  /** The keywords of `words` that occur in `text`, in list order: `[w for w in words if w in text]`. */
  function Matching(words: seq<string>, text: string): (m: seq<string>)
    ensures |m| <= |words|
    ensures forall w :: w in m <==> w in words && Contains(text, w)
  {
    if words == [] then []
    else (if Contains(text, words[0]) then [words[0]] else []) + Matching(words[1..], text)
  }

  /** `sum(1 for word in words if word in text)`. */
  function CountMatches(words: seq<string>, text: string): (n: nat)
    ensures n <= |words|
    ensures n == 0 <==> forall w :: w in words ==> !Contains(text, w)
  {
    var m := Matching(words, text);
    assert m != [] ==> m[0] in m;
    |m|
  }

  predicate Distinct(words: seq<string>) {
    forall i, j :: 0 <= i < j < |words| ==> words[i] != words[j]
  }

  /** The distinct keywords of `words` that occur in `text`. */
  ghost function MatchSet(words: seq<string>, text: string): set<string> {
    set w | w in words && Contains(text, w)
  }

  lemma MatchSetUnfold(words: seq<string>, text: string)
    requires words != []
    ensures MatchSet(words, text)
         == (if Contains(text, words[0]) then {words[0]} else {}) + MatchSet(words[1..], text)
  {
    assert words == [words[0]] + words[1..];
  }

  /** For a list without repeats, the count is the number of distinct keywords that occur in the text. */
  lemma {:induction false} CountIsDistinctMatches(words: seq<string>, text: string)
    requires Distinct(words)
    ensures CountMatches(words, text) == |MatchSet(words, text)|
  {
    if words != [] {
      var rest := words[1..];
      assert Distinct(rest) by {
        forall i, j | 0 <= i < j < |rest| ensures rest[i] != rest[j] {
          assert rest[i] == words[i + 1] && rest[j] == words[j + 1];
        }
      }
      CountIsDistinctMatches(rest, text);
      MatchSetUnfold(words, text);
      assert words[0] !in MatchSet(rest, text) by {
        forall j | 0 <= j < |rest| ensures rest[j] != words[0] { assert rest[j] == words[j + 1]; }
      }
    }
  }

  /** Counting only sees the text through the substring test, so equal match sets give equal counts. */
  lemma {:induction false} CountMatchesCongruent(words: seq<string>, t1: string, t2: string)
    requires forall w :: w in words ==> (Contains(t1, w) <==> Contains(t2, w))
    ensures Matching(words, t1) == Matching(words, t2)
    ensures CountMatches(words, t1) == CountMatches(words, t2)
  {
    if words != [] {
      assert words[0] in words;
      CountMatchesCongruent(words[1..], t1, t2);
    }
  }
}
