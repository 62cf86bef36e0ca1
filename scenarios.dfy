/** Callers of the generator with fixed options, showing what its contract
    guarantees in the typical configurations. */
module Scenarios {
  import opened CharClasses
  import opened PasswordGenerator

  /** Length 8, lower-case letters only: eight characters, all lower-case. */
  method LowerCaseOnly() returns (r: Result)
    ensures r.Ok? && |r.password| == 8
    ensures forall j :: 0 <= j < |r.password| ==> r.password[j] in LettersLower
  {
    var o := Options(false, true, false, false, false, false, false);
    r := GeneratePassword(8, o);
    assert Alphabet(o) == LettersLower;
  }

  /** Length 6, digits only, no duplicates: six distinct digits. */
  method SixDistinctDigits() returns (r: Result)
    ensures r.Ok? && |r.password| == 6 && Distinct(r.password)
    ensures forall j :: 0 <= j < |r.password| ==> r.password[j] in Numbers
  {
    var o := Options(true, false, false, false, false, true, false);
    r := GeneratePassword(6, o);
    assert Alphabet(o) == Numbers;
    ClassContents();
  }

  /** Length 10, digits only, no duplicates: only 8 digits exist, so after
      eight positions every digit is used. The source's redraw then never
      returns; `AlphabetExhausted` stands for that hang. */
  method TenDistinctDigits() returns (r: Result)
    ensures r == Err(AlphabetExhausted)
  {
    var o := Options(true, false, false, false, false, true, false);
    r := GeneratePassword(10, o);
    assert Alphabet(o) == Numbers;
    ClassContents();
  }

  /** Length 5, symbols only, beginning with a letter: no letter to begin
      with. */
  method SymbolsBeginningWithLetter() returns (r: Result)
    ensures r == Err(NoLettersAvailable)
  {
    var o := Options(false, false, false, true, true, false, false);
    r := GeneratePassword(5, o);
    assert r != Err(NoCharacterSetsSelected) && r != Err(AlphabetExhausted);
    assert r.error.NoLettersAvailable?;
  }

  /** The prompt chain's defaults: length 12, lower, upper and digits,
      beginning with a letter. */
  method Defaults() returns (r: Result)
    ensures r.Ok? && |r.password| == 12 && StartsWithLetter(r.password)
    ensures forall j :: 0 <= j < |r.password| ==>
              r.password[j] in LettersLower || r.password[j] in LettersUpper
              || r.password[j] in Numbers
  {
    var o := Options(true, true, true, false, true, false, false);
    r := GeneratePassword(12, o);
    forall j | 0 <= j < |r.password|
      ensures r.password[j] in LettersLower || r.password[j] in LettersUpper
              || r.password[j] in Numbers
    {
      AlphabetMembership(o, r.password[j]);
    }
  }
}
