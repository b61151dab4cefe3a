// Strings as the plugin sees them: Unicode white space, the lower-casing that matters for ASCII
// words, substring search, UTF-8 length, and the order in which Go compares map keys.
module Text {

  /** Go's unicode.IsSpace. */
  predicate IsSpace(c: char) {
    '\t' <= c <= '\r' || c == ' ' || c == '\U{0085}' || c == '\U{00A0}' || c == '\U{1680}'
    || '\U{2000}' <= c <= '\U{200A}' || c == '\U{2028}' || c == '\U{2029}' || c == '\U{202F}'
    || c == '\U{205F}' || c == '\U{3000}'
  }

  /** Go's unicode.IsControl. */
  predicate IsControl(c: char) {
    c < ' ' || '\U{007F}' <= c <= '\U{009F}'
  }

  function TrimSpace(s: string): (r: string)
    ensures |r| <= |s|
    ensures r != "" ==> !IsSpace(r[0]) && !IsSpace(r[|r| - 1])
    ensures (s == "" || (!IsSpace(s[0]) && !IsSpace(s[|s| - 1]))) ==> r == s
    ensures forall c :: c in r ==> c in s
    decreases |s|
  {
    if s == "" then ""
    else if IsSpace(s[0]) then TrimSpace(s[1..])
    else if IsSpace(s[|s| - 1]) then TrimSpace(s[..|s| - 1])
    else s
  }

  /** The letters whose lower-case form is ASCII: A to Z, U+0130 and the Kelvin sign. Every other
      letter lower-cases to something no ASCII word contains, so it may be left as it is. */
  function LowerChar(c: char): char {
    if 'A' <= c <= 'Z' then 'a' + (c - 'A')
    else if c == '\U{0130}' then 'i'
    else if c == '\U{212A}' then 'k'
    else c
  }

  function ToLower(s: string): (r: string)
    ensures |r| == |s|
  {
    seq(|s|, i requires 0 <= i < |s| => LowerChar(s[i]))
  }

  predicate Contains(s: string, word: string) {
    word <= s || (s != "" && Contains(s[1..], word))
  }

  /** Bytes the character takes in UTF-8. */
  function Utf8Width(c: char): nat {
    if c < '\U{0080}' then 1 else if c < '\U{0800}' then 2 else if c < '\U{10000}' then 3 else 4
  }

  function Utf8Length(s: string): (n: nat)
    ensures n >= |s|
  {
    if s == "" then 0 else Utf8Width(s[0]) + Utf8Length(s[1..])
  }

  /** The lexicographic order of Go's `<` on strings. */
  predicate Less(a: string, b: string) {
    b != "" && (a == "" || a[0] < b[0] || (a[0] == b[0] && Less(a[1..], b[1..])))
  }

  lemma {:induction false} LessIsTotal(a: string, b: string)
    ensures a == b || Less(a, b) || Less(b, a)
  {
    if a == "" || b == "" {
    } else if a[0] == b[0] {
      LessIsTotal(a[1..], b[1..]);
      assert a == [a[0]] + a[1..] && b == [b[0]] + b[1..];
    }
  }

  lemma {:induction false} LessIsAsymmetric(a: string, b: string)
    requires Less(a, b)
    ensures !Less(b, a)
  {
    if a == "" {
    } else if a[0] == b[0] {
      LessIsAsymmetric(a[1..], b[1..]);
    }
  }

  lemma {:induction false} LessIsTransitive(a: string, b: string, c: string)
    requires Less(a, b) && Less(b, c)
    ensures Less(a, c)
  {
    if a == "" {
    } else if a[0] == b[0] == c[0] {
      LessIsTransitive(a[1..], b[1..], c[1..]);
    }
  }

  // ---- What these functions mean ----

  /** The white space characters, one by one. */
  lemma SpacesAreExact(c: char)
    ensures IsSpace(c) <==>
              c in ['\U{0009}', '\U{000A}', '\U{000B}', '\U{000C}', '\U{000D}', '\U{0020}', '\U{0085}', '\U{00A0}',
                    '\U{1680}', '\U{2000}', '\U{2001}', '\U{2002}', '\U{2003}', '\U{2004}', '\U{2005}', '\U{2006}',
                    '\U{2007}', '\U{2008}', '\U{2009}', '\U{200A}', '\U{2028}', '\U{2029}', '\U{202F}', '\U{205F}',
                    '\U{3000}']
  {
  }

  /** s[i..j] is s without the white space around it. */
  predicate TrimmedAt(s: string, i: nat, j: nat) {
    && i <= j <= |s|
    && (forall k :: 0 <= k < i ==> IsSpace(s[k])) && (forall k :: j <= k < |s| ==> IsSpace(s[k]))
    && (i < j ==> !IsSpace(s[i]) && !IsSpace(s[j - 1]))
  }

  /** r is s without the white space around it. */
  ghost predicate TrimmedTo(s: string, r: string) {
    exists i: nat, j: nat :: TrimmedAt(s, i, j) && r == s[i..j]
  }

  lemma SpaceBefore(s: string, r: string)
    requires s != "" && IsSpace(s[0]) && TrimmedTo(s[1..], r)
    ensures TrimmedTo(s, r)
  {
    var i: nat, j: nat :| TrimmedAt(s[1..], i, j) && r == s[1..][i..j];
    assert s[1..][i..j] == s[i + 1..j + 1];
    assert TrimmedAt(s, i + 1, j + 1);
  }

  lemma SpaceAfter(s: string, r: string)
    requires s != "" && IsSpace(s[|s| - 1]) && TrimmedTo(s[..|s| - 1], r)
    ensures TrimmedTo(s, r)
  {
    var i: nat, j: nat :| TrimmedAt(s[..|s| - 1], i, j) && r == s[..|s| - 1][i..j];
    assert s[..|s| - 1][i..j] == s[i..j];
    assert TrimmedAt(s, i, j);
  }

  /** Trimming takes exactly the white space around. */
  lemma {:induction false} TrimIsExact(s: string)
    ensures TrimmedTo(s, TrimSpace(s))
    decreases |s|
  {
    if s == "" {
      assert TrimmedAt(s, 0, 0);
    } else if IsSpace(s[0]) {
      TrimIsExact(s[1..]);
      SpaceBefore(s, TrimSpace(s[1..]));
    } else if IsSpace(s[|s| - 1]) {
      TrimIsExact(s[..|s| - 1]);
      SpaceAfter(s, TrimSpace(s[..|s| - 1]));
    } else {
      assert TrimmedAt(s, 0, |s|) && s[0..|s|] == s;
    }
  }

  /** Which characters lower-case to an ASCII letter. */
  lemma LowerIsExact(c: char, letter: char)
    requires 'a' <= letter <= 'z'
    ensures LowerChar(c) == letter <==>
              || c == letter || (c < letter && letter - c == ' ')
              || (letter == 'i' && c == '\U{0130}') || (letter == 'k' && c == '\U{212A}')
  {
  }

  lemma LowerKeepsOthers(c: char)
    requires c < 'A' || ('Z' < c && c != '\U{0130}' && c != '\U{212A}')
    ensures LowerChar(c) == c
  {
  }

  /** The word stands at position i of s, in any case. */
  predicate StandsAt(s: string, word: string, i: nat) {
    i + |word| <= |s| && forall j :: 0 <= j < |word| ==> LowerChar(s[i + j]) == word[j]
  }

  /** The word stands somewhere in s, in any case. */
  ghost predicate Mentions(s: string, word: string) {
    exists i: nat :: StandsAt(s, word, i)
  }

  lemma {:induction false} ContainsIsExact(s: string, word: string)
    ensures Contains(s, word) <==> exists i: nat :: i <= |s| && word <= s[i..]
    decreases |s|
  {
    if word <= s {
      assert word <= s[0..];
    } else if s == "" {
    } else {
      ContainsIsExact(s[1..], word);
      if i: nat :| i <= |s| && word <= s[i..] {
        assert i != 0 && word <= s[1..][i - 1..];
      }
      if i: nat :| i <= |s[1..]| && word <= s[1..][i..] {
        assert word <= s[i + 1..];
      }
    }
  }

  /** Searching the lower-cased text finds exactly the mentions. */
  lemma MentionIsExact(s: string, word: string)
    ensures Contains(ToLower(s), word) <==> Mentions(s, word)
  {
    ContainsIsExact(ToLower(s), word);
    if i: nat :| i <= |ToLower(s)| && word <= ToLower(s)[i..] {
      forall j | 0 <= j < |word|
        ensures LowerChar(s[i + j]) == word[j]
      {
        assert ToLower(s)[i..][j] == word[j];
      }
      assert StandsAt(s, word, i);
    }
    if i: nat :| StandsAt(s, word, i) {
      assert word == ToLower(s)[i..][..|word|];
      assert word <= ToLower(s)[i..];
    }
  }

  /** a and b first differ at position i, where a ends or has the smaller character. */
  predicate SmallerAt(a: string, b: string, i: nat) {
    i <= |a| && i < |b| && a[..i] == b[..i] && (i == |a| || a[i] < b[i])
  }

  /** The order of map keys is the lexicographic one. */
  lemma {:induction false} LessIsLexicographic(a: string, b: string)
    ensures Less(a, b) <==> exists i: nat :: SmallerAt(a, b, i)
    decreases |a|
  {
    if b == "" {
    } else if a == "" || a[0] < b[0] {
      assert SmallerAt(a, b, 0);
    } else if a[0] == b[0] {
      LessIsLexicographic(a[1..], b[1..]);
      if i: nat :| SmallerAt(a[1..], b[1..], i) {
        assert a[..i + 1] == [a[0]] + a[1..][..i] && b[..i + 1] == [b[0]] + b[1..][..i];
        assert SmallerAt(a, b, i + 1);
      }
      if i: nat :| SmallerAt(a, b, i) {
        assert i > 0 && a[1..][..i - 1] == a[..i][1..] && b[1..][..i - 1] == b[..i][1..];
        assert SmallerAt(a[1..], b[1..], i - 1);
      }
    }
  }

  /** UTF-8 lengths add up, character by character. */
  lemma {:induction false} Utf8LengthsAddUp(a: string, b: string)
    ensures Utf8Length(a + b) == Utf8Length(a) + Utf8Length(b)
    decreases |a|
  {
    if a == "" {
      assert a + b == b;
    } else {
      assert (a + b)[1..] == a[1..] + b;
      Utf8LengthsAddUp(a[1..], b);
    }
  }

  /** A character takes as many bytes as its code needs groups of six bits after the first. */
  lemma Utf8OfOne(c: char)
    ensures Utf8Length([c]) == 1 <==> c as int < 128
    ensures Utf8Length([c]) == 2 <==> 128 <= c as int < 2048
    ensures Utf8Length([c]) == 3 <==> 2048 <= c as int < 65536
    ensures Utf8Length([c]) == 4 <==> 65536 <= c as int
  {
    assert [c][1..] == "";
  }
}
