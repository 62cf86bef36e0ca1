/** The four fixed character-class alphabets of the password generator, and
    the facts about them that the generator's proofs rely on: their sizes,
    that no class repeats a character, and that the classes occupy disjoint
    ranges of character codes. */
module CharClasses {

  /** Lower-case letters without the look-alikes i, l and o. */
  const LettersLower: string := "abcdefghjkmnpqrstuvwxyz"

  /** Upper-case letters without I and O. The letter L is kept. */
  const LettersUpper: string := "ABCDEFGHJKLMNPQRSTUVWXYZ"

  /** Digits without 0 and 1. */
  const Numbers: string := "23456789"

  /** The 32 ASCII punctuation characters, in code order. */
  const Symbols: string := "!\"#$%&'()*+,-./:;<=>?@[\\]^_`{|}~"

  /** What the regular expression class `[a-zA-Z]` matches. */
  predicate IsAsciiLetter(c: char) {
    'a' <= c <= 'z' || 'A' <= c <= 'Z'
  }

  predicate IsAsciiDigit(c: char) {
    '0' <= c <= '9'
  }

  /** No character occurs at two positions of `s`. */
  predicate Distinct(s: string) {
    forall i, j :: 0 <= i < j < |s| ==> s[i] != s[j]
  }

  /** Every character has a smaller code than the one after it. */
  predicate Ascending(s: string) {
    forall i :: 0 <= i < |s| - 1 ==> s[i] < s[i + 1]
  }

  /** The set of characters that occur in `s`. */
  function Chars(s: string): set<char> {
    set c | c in s
  }

  /** The sizes of the classes and the characters left out of them. */
  lemma ClassContents()
    ensures |LettersLower| == 23 && |LettersUpper| == 24 && |Numbers| == 8 && |Symbols| == 32
    ensures 'i' !in LettersLower && 'l' !in LettersLower && 'o' !in LettersLower
    ensures 'I' !in LettersUpper && 'O' !in LettersUpper && 'L' in LettersUpper
    ensures '0' !in Numbers && '1' !in Numbers
  {
    LowerContents();
    UpperContents();
    DigitContents();
    SymbolContents();
  }

  /** The lower-case class: its size, the letters it leaves out and its code
      order. */
  lemma LowerContents()
    ensures |LettersLower| == 23 && Ascending(LettersLower)
    ensures 'i' !in LettersLower && 'l' !in LettersLower && 'o' !in LettersLower
  {
  }

  /** The upper-case class: its size, the letters it leaves out or keeps and
      its code order. */
  lemma UpperContents()
    ensures |LettersUpper| == 24 && Ascending(LettersUpper)
    ensures 'I' !in LettersUpper && 'O' !in LettersUpper && 'L' in LettersUpper
  {
  }

  /** The digit class: its size, the digits it leaves out and its code
      order. */
  lemma DigitContents()
    ensures |Numbers| == 8 && Ascending(Numbers)
    ensures '0' !in Numbers && '1' !in Numbers
  {
  }

  /** The symbol class: its size and its code order. */
  lemma SymbolContents()
    ensures |Symbols| == 32 && Ascending(Symbols)
  {
  }

  /** Each class lies in its own range of codes: lower-case letters, upper-case
      letters, digits, and characters that are neither letters nor digits. */
  lemma ClassRanges()
    ensures forall i :: 0 <= i < |LettersLower| ==> 'a' <= LettersLower[i] <= 'z'
    ensures forall i :: 0 <= i < |LettersUpper| ==> 'A' <= LettersUpper[i] <= 'Z'
    ensures forall i :: 0 <= i < |Numbers| ==> IsAsciiDigit(Numbers[i])
    ensures forall i :: 0 <= i < |Symbols| ==>
              !IsAsciiLetter(Symbols[i]) && !IsAsciiDigit(Symbols[i])
  {
  }

  /** In a strictly ascending string every character is below every later
      one. */
  lemma {:induction false} AscendingLess(s: string, i: nat, j: nat)
    requires Ascending(s) && i < j < |s|
    ensures s[i] < s[j]
    decreases j - i
  {
    if i + 1 < j {
      AscendingLess(s, i + 1, j);
    }
  }

  /** A strictly ascending string repeats no character. */
  lemma AscendingDistinct(s: string)
    requires Ascending(s)
    ensures Distinct(s)
  {
    forall i: nat, j: nat | i < j < |s|
      ensures s[i] != s[j]
    {
      AscendingLess(s, i, j);
    }
  }

  /** No class repeats a character. */
  lemma ClassesDistinct()
    ensures Distinct(LettersLower) && Distinct(LettersUpper)
    ensures Distinct(Numbers) && Distinct(Symbols)
  {
    LowerContents();
    UpperContents();
    DigitContents();
    SymbolContents();
    AscendingDistinct(LettersLower);
    AscendingDistinct(LettersUpper);
    AscendingDistinct(Numbers);
    AscendingDistinct(Symbols);
  }

  /** Joining two duplicate-free strings that share no character gives a
      duplicate-free string. */
  lemma DistinctConcat(a: string, b: string)
    requires Distinct(a) && Distinct(b)
    requires forall i, j :: 0 <= i < |a| && 0 <= j < |b| ==> a[i] != b[j]
    ensures Distinct(a + b)
  {
    forall i, j | 0 <= i < j < |a + b|
      ensures (a + b)[i] != (a + b)[j]
    {
      if j < |a| {
        assert (a + b)[i] == a[i] && (a + b)[j] == a[j];
      } else if i >= |a| {
        assert (a + b)[i] == b[i - |a|] && (a + b)[j] == b[j - |a|];
      } else {
        assert (a + b)[i] == a[i] && (a + b)[j] == b[j - |a|];
      }
    }
  }

  /** A duplicate-free string has as many distinct characters as positions. */
  lemma {:induction false} DistinctCard(s: string)
    requires Distinct(s)
    ensures |Chars(s)| == |s|
  {
    if |s| > 0 {
      var t := s[..|s| - 1];
      assert Distinct(t);
      DistinctCard(t);
      assert Chars(s) == Chars(t) + {s[|s| - 1]};
      assert s[|s| - 1] !in Chars(t);
    }
  }

  /** Pigeonhole bound: a duplicate-free string whose characters come from
      `a` and that misses some character `c` of `a` is shorter than the number
      of distinct characters of `a`. */
  lemma RoomLeft(p: string, a: string, c: char)
    requires Distinct(p)
    requires forall j :: 0 <= j < |p| ==> p[j] in a
    requires c in a && c !in p
    ensures |p| < |Chars(a)|
  {
    DistinctCard(p);
    var rest := Chars(a) - {c};
    assert Chars(p) <= rest;
    assert rest == Chars(p) + (rest - Chars(p));
    assert Chars(p) * (rest - Chars(p)) == {};
    assert |Chars(a)| == |rest| + 1;
  }

  /** A duplicate-free string whose characters come from `a` holds at most as
      many characters as `a` has distinct ones. */
  lemma Capacity(p: string, a: string)
    requires Distinct(p)
    requires forall j :: 0 <= j < |p| ==> p[j] in a
    ensures |p| <= |Chars(a)|
  {
    if exists c :: c in a && c !in p {
      var c :| c in a && c !in p;
      RoomLeft(p, a, c);
    } else {
      DistinctCard(p);
      assert Chars(p) == Chars(a);
    }
  }

  /** Exhaustion: once a duplicate-free string drawn from `a` has as many
      characters as `a` has distinct characters, every character of `a` is
      already in it. */
  lemma Exhausted(p: string, a: string)
    requires Distinct(p)
    requires forall j :: 0 <= j < |p| ==> p[j] in a
    requires |p| == |Chars(a)|
    ensures forall c :: c in a ==> c in p
  {
    forall c | c in a
      ensures c in p
    {
      if c !in p {
        RoomLeft(p, a, c);
      }
    }
  }
}
