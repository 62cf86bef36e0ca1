/** The password generator of `src/cli.ts`: build the alphabet from the
    active character classes, fill the positions one by one under the
    duplicate and sequential policies, then make sure the password begins
    with a letter.

    `Math.random()` is modelled by a choice of index: `DrawIndex(n)` yields
    some index below `n`, as `Math.floor(Math.random() * n)` does. */
module PasswordGenerator {
  import opened CharClasses

  /** The seven flags the prompt chain collects. */
  datatype Options = Options(
    includeNumbers: bool,
    includeLowercase: bool,
    includeUppercase: bool,
    includeSymbols: bool,
    beginWithLetter: bool,
    noDuplicateCharacters: bool,
    noSequentialCharacters: bool)

  /** The two errors the generator throws, and the state in which its
      duplicate-avoiding redraw loop can never exit. */
  datatype GenError =
    | NoCharacterSetsSelected
    | NoLettersAvailable
    | AlphabetExhausted

  datatype Result = Ok(password: string) | Err(error: GenError)

  predicate AnyClass(o: Options) {
    o.includeLowercase || o.includeUppercase || o.includeNumbers || o.includeSymbols
  }

  predicate AnyLetterClass(o: Options) {
    o.includeLowercase || o.includeUppercase
  }

  /** The alphabet: the active classes in the order lower, upper, numbers,
      symbols. */
  function Alphabet(o: Options): string {
    (if o.includeLowercase then LettersLower else "")
    + (if o.includeUppercase then LettersUpper else "")
    + (if o.includeNumbers then Numbers else "")
    + (if o.includeSymbols then Symbols else "")
  }

  /** The letters a first character may be replaced with: the active letter
      classes, lower before upper. */
  function LetterSet(o: Options): string {
    (if o.includeLowercase then LettersLower else "")
    + (if o.includeUppercase then LettersUpper else "")
  }

  /** Whether `/^[a-zA-Z]/` matches `s`. */
  predicate StartsWithLetter(s: string) {
    |s| > 0 && IsAsciiLetter(s[0])
  }

  /** JavaScript's `s.slice(1)`, which is empty for an empty `s`. */
  function Tail(s: string): string {
    if |s| == 0 then "" else s[1..]
  }

  /** Two characters whose codes differ by exactly one. */
  predicate Sequential(a: char, b: char) {
    (a as int) - (b as int) == 1 || (b as int) - (a as int) == 1
  }

  /** No two neighbouring characters of `s` are sequential. */
  predicate NoSequential(s: string) {
    forall j :: 0 < j < |s| ==> !Sequential(s[j - 1], s[j])
  }

  // ---------------------------------------------------------------------
  // Facts about the alphabet

  /** The alphabet is empty exactly when no class is active, and its length
      is the sum of the active classes' sizes. */
  lemma AlphabetSize(o: Options)
    ensures |Alphabet(o)| == (if o.includeLowercase then 23 else 0)
                           + (if o.includeUppercase then 24 else 0)
                           + (if o.includeNumbers then 8 else 0)
                           + (if o.includeSymbols then 32 else 0)
    ensures |Alphabet(o)| == 0 <==> !AnyClass(o)
  {
  }

  /** A character is in the alphabet exactly when it belongs to an active
      class. */
  lemma AlphabetMembership(o: Options, c: char)
    ensures c in Alphabet(o) <==>
              (o.includeLowercase && c in LettersLower)
              || (o.includeUppercase && c in LettersUpper)
              || (o.includeNumbers && c in Numbers)
              || (o.includeSymbols && c in Symbols)
  {
  }

  /** No character occurs twice in the alphabet, so the number of distinct
      characters available equals its length. */
  lemma AlphabetDistinct(o: Options)
    ensures Distinct(Alphabet(o))
    ensures |Chars(Alphabet(o))| == |Alphabet(o)|
  {
    ClassesDistinct();
    ClassRanges();
    var lower := if o.includeLowercase then LettersLower else "";
    var upper := if o.includeUppercase then LettersUpper else "";
    var digits := if o.includeNumbers then Numbers else "";
    var symbols := if o.includeSymbols then Symbols else "";
    DistinctConcat(lower, upper);
    DistinctConcat(lower + upper, digits);
    DistinctConcat(lower + upper + digits, symbols);
    assert Alphabet(o) == lower + upper + digits + symbols;
    DistinctCard(Alphabet(o));
  }

  /** The letter set holds exactly the ASCII letters of the alphabet. */
  lemma LetterSetIsLettersOfAlphabet(o: Options, c: char)
    ensures c in LetterSet(o) <==> c in Alphabet(o) && IsAsciiLetter(c)
  {
    ClassRanges();
    if c in Numbers {
      var i :| 0 <= i < |Numbers| && Numbers[i] == c;
    }
    if c in Symbols {
      var i :| 0 <= i < |Symbols| && Symbols[i] == c;
    }
    if c in LettersLower {
      var i :| 0 <= i < |LettersLower| && LettersLower[i] == c;
    }
    if c in LettersUpper {
      var i :| 0 <= i < |LettersUpper| && LettersUpper[i] == c;
    }
  }

  /** The first-letter replacement ignores the duplicate and sequential
      policies. With lower-case letters and digits, a letter start, and both
      policies on, the loop may build "2a" or "2b": both come from the
      alphabet, are duplicate-free, have no sequential neighbours and do not
      start with a letter, so the fix-up replaces position 0. Putting 'a' in
      front of their tails gives "aa", which repeats a character, and "ab",
      which is sequential. */
  lemma ReplacementIgnoresPolicies()
    ensures var o := Options(true, true, false, false, true, true, true);
            && (forall j :: 0 <= j < 2 ==> "2a"[j] in Alphabet(o) && "2b"[j] in Alphabet(o))
            && o.beginWithLetter && 'a' in LetterSet(o)
    ensures Distinct("2a") && NoSequential("2a") && !StartsWithLetter("2a")
    ensures Distinct("2b") && NoSequential("2b") && !StartsWithLetter("2b")
    ensures !Distinct(['a'] + Tail("2a"))
    ensures !NoSequential(['a'] + Tail("2b"))
  {
    assert '2' == Numbers[0];
    assert 'a' == LettersLower[0];
    assert 'b' == LettersLower[1];
    assert (['a'] + Tail("2a"))[0] == (['a'] + Tail("2a"))[1];
    assert Sequential((['a'] + Tail("2b"))[0], (['a'] + Tail("2b"))[1]);
  }

  // ---------------------------------------------------------------------
  // Random draws

  /** `Math.floor(Math.random() * n)`: some index below `n`. */
  method DrawIndex(n: nat) returns (k: nat)
    requires n > 0
    ensures k < n
  {
    k :| k < n;
  }

  /** The index with which the duplicate-avoiding `do…while` exits: an index
      of a character not yet used. When every character of the alphabet is
      used, no draw can ever end that loop, which `found == false` reports. */
  method DrawUnused(characters: string, used: set<char>) returns (found: bool, k: nat)
    ensures found <==> exists c :: c in characters && c !in used
    ensures found ==> k < |characters| && characters[k] !in used
  {
    found := exists c :: c in characters && c !in used;
    if found {
      var c :| c in characters && c !in used;
      k :| k < |characters| && characters[k] == c;
    } else {
      k := 0;
    }
  }

  // ---------------------------------------------------------------------
  // Generation

  /** The alphabet as the source builds it, one `+=` per active class. */
  method BuildCharacters(o: Options) returns (characters: string)
    ensures characters == Alphabet(o)
  {
    ghost var lower := if o.includeLowercase then LettersLower else "";
    ghost var upper := if o.includeUppercase then LettersUpper else "";
    ghost var digits := if o.includeNumbers then Numbers else "";
    ghost var symbols := if o.includeSymbols then Symbols else "";
    characters := "";
    if o.includeLowercase { characters := characters + LettersLower; }
    assert characters == lower;
    if o.includeUppercase { characters := characters + LettersUpper; }
    assert characters == lower + upper;
    if o.includeNumbers { characters := characters + Numbers; }
    assert characters == lower + upper + digits;
    if o.includeSymbols { characters := characters + Symbols; }
    assert characters == lower + upper + digits + symbols;
  }

  /** The main loop: positions `0 .. length - 1` in order. A candidate that
      is sequential to the last appended character is dropped and its
      position skipped, so the password can come out shorter than `length`.
      Under duplicate avoidance a full alphabet ends in `AlphabetExhausted`,
      the state in which the source's redraw loop runs forever. */
  method FillPositions(length: nat, characters: string, o: Options) returns (r: Result)
    requires |characters| > 0
    ensures r.Err? ==> r.error == AlphabetExhausted
    ensures r.Err? ==> o.noDuplicateCharacters && length > |Chars(characters)|
    ensures o.noDuplicateCharacters && !o.noSequentialCharacters ==>
              (r.Err? <==> length > |Chars(characters)|)
    ensures r.Ok? ==> forall j :: 0 <= j < |r.password| ==> r.password[j] in characters
    ensures r.Ok? && !o.noSequentialCharacters ==> |r.password| == length
    ensures r.Ok? && o.noSequentialCharacters ==>
              |r.password| <= length && (length > 0 ==> |r.password| > 0)
    ensures r.Ok? && o.noDuplicateCharacters ==> Distinct(r.password)
    ensures r.Ok? && o.noSequentialCharacters ==> NoSequential(r.password)
  {
    var password := "";
    var usedChars: set<char> := {};
    for i := 0 to length
      invariant |password| <= i
      invariant !o.noSequentialCharacters ==> |password| == i
      invariant i > 0 ==> |password| > 0
      invariant forall j :: 0 <= j < |password| ==> password[j] in characters
      invariant usedChars == if o.noDuplicateCharacters then Chars(password) else {}
      invariant o.noDuplicateCharacters ==> Distinct(password)
      invariant o.noDuplicateCharacters && !o.noSequentialCharacters ==> i <= |Chars(characters)|
      invariant o.noSequentialCharacters ==> NoSequential(password)
    {
      var k: nat;
      if o.noDuplicateCharacters {
        var found;
        found, k := DrawUnused(characters, usedChars);
        if !found {
          Full(password, characters);
          return Err(AlphabetExhausted);
        }
        RoomLeft(password, characters, characters[k]);
      } else {
        k := DrawIndex(|characters|);
      }
      var c := characters[k];
      if o.noSequentialCharacters && i > 0 {
        var last := password[|password| - 1];
        if Sequential(c, last) {
          continue;
        }
      }
      if o.noDuplicateCharacters {
        usedChars := usedChars + {c};
      }
      password := password + [c];
    }
    r := Ok(password);
  }

  /** The exhaustion exit of `FillPositions`: when every character is used,
      the password has as many characters as the alphabet has distinct
      ones. */
  lemma Full(password: string, characters: string)
    requires Distinct(password)
    requires forall j :: 0 <= j < |password| ==> password[j] in characters
    requires forall c :: c in characters ==> c in Chars(password)
    ensures |password| == |Chars(characters)|
  {
    DistinctCard(password);
    assert Chars(password) == Chars(characters);
  }

  /** The three outcomes of the first-character fix-up of `p`: unchanged when
      no letter start is needed or `p` already begins with an ASCII letter;
      `NoLettersAvailable` when one is needed and no letter class is active;
      otherwise a letter of the active letter classes followed by the tail of
      `p`. */
  predicate FixedUp(p: string, o: Options, r: Result) {
    && (!(o.beginWithLetter && !StartsWithLetter(p)) ==> r == Ok(p))
    && (o.beginWithLetter && !StartsWithLetter(p) && |LetterSet(o)| == 0 ==>
          r == Err(NoLettersAvailable))
    && (o.beginWithLetter && !StartsWithLetter(p) && |LetterSet(o)| > 0 ==>
          r.Ok? && |r.password| > 0 && r.password[0] in LetterSet(o)
          && r.password[1..] == Tail(p))
  }

  /** The first-character fix-up: when a letter start is required and the
      password does not begin with an ASCII letter, position 0 is replaced by
      a letter of the active letter classes and the rest is kept. */
  method BeginWithLetter(password: string, o: Options) returns (r: Result)
    ensures FixedUp(password, o, r)
  {
    if o.beginWithLetter && !StartsWithLetter(password) {
      var letterSet := LetterSet(o);
      if |letterSet| == 0 {
        return Err(NoLettersAvailable);
      }
      var k := DrawIndex(|letterSet|);
      r := Ok([letterSet[k]] + Tail(password));
    } else {
      r := Ok(password);
    }
  }

  /** What the first-letter fix-up keeps of a loop-built password `p`: every
      character is still in the alphabet, a letter now leads when one is
      required, and the fix-up fails exactly when no letter class is active. */
  lemma FixUpKeepsAlphabet(o: Options, p: string, r: Result)
    requires forall j :: 0 <= j < |p| ==> p[j] in Alphabet(o)
    requires FixedUp(p, o, r)
    ensures r.Err? ==> r.error == NoLettersAvailable && o.beginWithLetter && !AnyLetterClass(o)
    ensures o.beginWithLetter && !AnyLetterClass(o) ==> r.Err?
    ensures r.Ok? ==> forall j :: 0 <= j < |r.password| ==> r.password[j] in Alphabet(o)
    ensures r.Ok? && o.beginWithLetter ==> StartsWithLetter(r.password)
  {
    if !(o.beginWithLetter && !StartsWithLetter(p)) {
      assert r.password == p;
      if |p| > 0 {
        LetterSetIsLettersOfAlphabet(o, p[0]);
      }
    } else if |LetterSet(o)| > 0 {
      var q := r.password;
      LetterSetIsLettersOfAlphabet(o, q[0]);
      forall j | 0 <= j < |q|
        ensures q[j] in Alphabet(o)
      {
        if j > 0 {
          assert q[j] == Tail(p)[j - 1] == p[j];
        }
      }
    }
  }

  /** What the first-letter fix-up keeps of the loop's policies: the length,
      and distinctness and non-adjacency from position 1 on; from position 0
      on as well when no fix-up is asked for or only letter classes are
      active, since then position 0 keeps its character (or the password was
      empty). */
  lemma FixUpKeepsPolicies(length: nat, o: Options, p: string, r: Result)
    requires forall j :: 0 <= j < |p| ==> p[j] in Alphabet(o)
    requires !o.noSequentialCharacters ==> |p| == length
    requires o.noSequentialCharacters ==> |p| <= length && (length > 0 ==> |p| > 0)
    requires o.noDuplicateCharacters ==> Distinct(p)
    requires o.noSequentialCharacters ==> NoSequential(p)
    requires FixedUp(p, o, r)
    ensures r.Ok? && !o.noSequentialCharacters ==>
              |r.password| == if length == 0 && o.beginWithLetter then 1 else length
    ensures r.Ok? && o.noSequentialCharacters ==>
              |r.password| <= (if length == 0 && o.beginWithLetter then 1 else length)
              && (length > 0 ==> |r.password| > 0)
    ensures r.Ok? && o.noDuplicateCharacters ==> Distinct(Tail(r.password))
    ensures r.Ok? && o.noSequentialCharacters ==> NoSequential(Tail(r.password))
    ensures r.Ok? && (!o.beginWithLetter || (!o.includeNumbers && !o.includeSymbols)) ==>
              (o.noDuplicateCharacters ==> Distinct(r.password))
              && (o.noSequentialCharacters ==> NoSequential(r.password))
  {
    if |p| > 0 && !o.includeNumbers && !o.includeSymbols {
      AlphabetMembership(o, p[0]);
      ClassRanges();
      LetterSetIsLettersOfAlphabet(o, p[0]);
    }
    if r.Ok? && r.password != p {
      assert Tail(r.password) == Tail(p);
    }
  }

  /** `generatePassword(length, options)`. */
  method GeneratePassword(length: nat, o: Options) returns (r: Result)
    ensures r == Err(NoCharacterSetsSelected) <==> !AnyClass(o)
    ensures r == Err(AlphabetExhausted) ==>
              o.noDuplicateCharacters && length > |Alphabet(o)|
    ensures o.noDuplicateCharacters && !o.noSequentialCharacters && AnyClass(o) ==>
              (r == Err(AlphabetExhausted) <==> length > |Alphabet(o)|)
    ensures r == Err(NoLettersAvailable) ==> o.beginWithLetter && !AnyLetterClass(o)
    ensures o.beginWithLetter && !AnyLetterClass(o) ==> r.Err?
    ensures (AnyClass(o)
             && (!o.noDuplicateCharacters || length <= |Alphabet(o)|)
             && (!o.beginWithLetter || AnyLetterClass(o))) ==> r.Ok?
    ensures r.Ok? ==> forall j :: 0 <= j < |r.password| ==> r.password[j] in Alphabet(o)
    ensures r.Ok? && o.beginWithLetter ==> StartsWithLetter(r.password)
    ensures r.Ok? && !o.noSequentialCharacters ==>
              |r.password| == if length == 0 && o.beginWithLetter then 1 else length
    ensures r.Ok? && o.noSequentialCharacters ==>
              |r.password| <= (if length == 0 && o.beginWithLetter then 1 else length)
              && (length > 0 ==> |r.password| > 0)
    ensures r.Ok? && o.noDuplicateCharacters ==> Distinct(Tail(r.password))
    ensures r.Ok? && o.noSequentialCharacters ==> NoSequential(Tail(r.password))
    ensures r.Ok? && (!o.beginWithLetter || (!o.includeNumbers && !o.includeSymbols)) ==>
              (o.noDuplicateCharacters ==> Distinct(r.password))
              && (o.noSequentialCharacters ==> NoSequential(r.password))
  {
    var characters := BuildCharacters(o);
    AlphabetSize(o);
    if |characters| == 0 {
      return Err(NoCharacterSetsSelected);
    }
    AlphabetDistinct(o);
    var built := FillPositions(length, characters, o);
    if built.Err? {
      return built;
    }
    var password := built.password;
    r := BeginWithLetter(password, o);
    FixUpKeepsAlphabet(o, password, r);
    FixUpKeepsPolicies(length, o, password, r);
  }
}
