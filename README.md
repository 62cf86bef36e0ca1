# Password generator model

This project is a Dafny model of `generatePassword` from a small
command-line password generator (`src/cli.ts`). The function takes a length
and seven option flags. It first builds an alphabet from four fixed
character classes: lower-case letters, upper-case letters, digits and
symbols. It then fills the positions one at a time. Two policies can apply
while it does so: never reuse a character, and never place a character
whose code is one away from the previous one. Last, it can force the
password to begin with an ASCII letter.

Modules:

- `CharClasses` (`char_classes.dfy`): the four class alphabets as constants,
  with lemmas that fix their sizes and contents, that show no class repeats
  a character, and that show the classes lie in disjoint code ranges. It
  also holds the counting lemmas behind exhaustion. A duplicate-free string
  drawn from an alphabet holds at most as many characters as the alphabet
  has distinct ones (`Capacity`). It holds fewer while some character is
  missing (`RoomLeft`). Once it holds that many, every character is used
  (`Exhausted`).
- `PasswordGenerator` (`generator.dfy`): the options, the errors, the
  alphabet as a function, and the generator itself as methods.
  `GeneratePassword` builds the alphabet with one `+=` per active class in
  `BuildCharacters`. It fills the positions in the `for` loop of
  `FillPositions`, whose invariants track the partial password and the
  used-character set. It fixes the first character in `BeginWithLetter`.
- `Scenarios` (`scenarios.dfy`): callers with fixed options, such as the
  prompt chain's defaults. Each one shows what the contract guarantees for
  that configuration.

Randomness. `Math.floor(Math.random() * n)` becomes `DrawIndex(n)`, which
yields some index below `n`. The proofs hold for every index it may yield.
The duplicate-avoiding `do…while` redraws until the candidate is unused.
It becomes `DrawUnused`, which yields directly the index that ends that
loop: some index whose character is not yet used. When every character of
the alphabet is already used, no draw can end the source's loop, and it runs
forever. The model reports that state as `Err(AlphabetExhausted)`.

Notes on the code as written:

- A candidate that is sequential to the last appended character is dropped
  by `continue` (src/cli.ts:69). The loop counter still advances, so that
  position is skipped and the password comes out shorter than `length`. The
  candidate is not redrawn.
- The redraw at src/cli.ts:61-63 never ends once every character is used.
  The model reports that state as `Err(AlphabetExhausted)`.
- The upper-case class contains `L`, although the comment beside it says L
  is excluded. It has 24 characters. The lower-case class has 23 characters,
  the digits 8 and the symbols 32.
- `length` is a `nat`. A length of 0 is kept: the loop builds `""`, and with
  `beginWithLetter` the fix-up turns it into a one-letter password. This is
  because `/^[a-zA-Z]/` fails on `""` and `"".slice(1)` is `""`.

## Model

| member | source | states |
|---|---|---|
| `CharClasses.ClassContents` | src/cli.ts:7-10 | The classes have 23, 24, 8 and 32 characters. Lower-case has no i, l or o; upper-case has no I or O but does have L; the digits have no 0 or 1. |
| `CharClasses.ClassRanges` | src/cli.ts:7-10 | Every lower-case character is in `a..z` and every upper-case one in `A..Z`. Every digit is a decimal digit. Every symbol is neither a letter nor a digit. |
| `CharClasses.ClassesDistinct` | src/cli.ts:7-10 | No class alphabet repeats a character. |
| `CharClasses.Capacity` | src/cli.ts:61-63 | A duplicate-free string drawn from an alphabet holds at most as many characters as the alphabet has distinct ones. |
| `CharClasses.RoomLeft` | src/cli.ts:61-63 | A duplicate-free string drawn from an alphabet that still misses one of its characters is shorter than the alphabet's number of distinct characters. |
| `CharClasses.Exhausted` | src/cli.ts:61-63 | Once a duplicate-free string drawn from an alphabet has as many characters as the alphabet has distinct ones, every character of the alphabet is in it, so the redraw loop can never exit. |
| `PasswordGenerator.AlphabetSize` | src/cli.ts:43-51 | The alphabet's length is the sum of the active classes' sizes. It is empty exactly when no class is active. |
| `PasswordGenerator.AlphabetMembership` | src/cli.ts:43-46 | A character is in the alphabet exactly when it belongs to an active class. |
| `PasswordGenerator.AlphabetDistinct` | src/cli.ts:43-46 | The alphabet repeats no character, so its number of distinct characters equals its length. |
| `PasswordGenerator.LetterSetIsLettersOfAlphabet` | src/cli.ts:79 | The letter set (active lower-case, then upper-case) holds exactly the ASCII letters of the alphabet. |
| `PasswordGenerator.ReplacementIgnoresPolicies` | src/cli.ts:73-85 | With lower-case letters and digits, a letter start and both policies on, "2a" and "2b" are strings over the alphabet that are duplicate-free, have no sequential neighbours and do not start with a letter, so the fix-up replaces their position 0. Putting 'a', a member of the letter set, in front of their tails gives "aa", which repeats a character, and "ab", which is sequential. |
| `PasswordGenerator.DrawIndex` | src/cli.ts:62 | A random draw is an index in `[0, n)`. |
| `PasswordGenerator.DrawUnused` | src/cli.ts:61-63 | The duplicate-avoiding redraw can end exactly when some alphabet character is unused. It then ends on an index in range whose character is unused. |
| `PasswordGenerator.BuildCharacters` | src/cli.ts:40-46 | The `+=` chain produces exactly the concatenation of the active classes in the order lower, upper, numbers, symbols. |
| `PasswordGenerator.FillPositions` | src/cli.ts:53-75 | The main loop fails only under duplicate avoidance, and only when `length` exceeds the number of distinct alphabet characters. Without the sequential policy it fails exactly then. Every appended character is in the alphabet. Without the sequential policy the password has exactly `length` characters. With it, at most `length` and at least 1 when `length >= 1`. The password is duplicate-free under duplicate avoidance and has no sequential neighbours under the sequential policy. |
| `PasswordGenerator.Full` | src/cli.ts:61-63 | When every alphabet character is used, the duplicate-free password has exactly as many characters as the alphabet has distinct ones. |
| `PasswordGenerator.BeginWithLetter` | src/cli.ts:78-86 | If no letter start is needed, or the password already starts with an ASCII letter, it is returned unchanged. Otherwise, with no active letter class, it fails with `NoLettersAvailable`. Else position 0 becomes a letter of the active letter classes and `password.slice(1)` is kept. |
| `PasswordGenerator.FixUpKeepsAlphabet` | src/cli.ts:78-86 | After the fix-up every character is still in the alphabet. A letter leads whenever one is required. The fix-up fails exactly when a letter start is required and no letter class is active. |
| `PasswordGenerator.FixUpKeepsPolicies` | src/cli.ts:73-86 | The fix-up keeps the length, except that an empty password becomes one letter. It keeps distinctness and non-adjacency from position 1 on. From position 0 on it keeps them too when no letter start is required or only letter classes are active. |
| `PasswordGenerator.GeneratePassword` | src/cli.ts:28-89 | It fails with `NoCharacterSetsSelected` exactly when no class is active, for any length. `AlphabetExhausted` happens only under duplicate avoidance with `length` greater than the alphabet; without the sequential policy it happens exactly then. It fails with `NoLettersAvailable` only when a letter start is required and no letter class is active, and it always fails in that case. It succeeds when some class is active, duplicates are allowed or `length` fits the alphabet, and a required letter start has a letter class. On success: every character is in the alphabet; a required first letter is an ASCII letter; the length is exact without the sequential policy and bounded with it; distinctness and non-adjacency hold from position 1 on, and from position 0 on when position 0 cannot have been replaced. |
| `Scenarios.LowerCaseOnly` | src/cli.ts:28-89 | Length 8 with lower-case only gives 8 lower-case characters. |
| `Scenarios.SixDistinctDigits` | src/cli.ts:28-89 | Length 6 with digits only and no duplicates gives 6 distinct digits. |
| `Scenarios.TenDistinctDigits` | src/cli.ts:61-63 | Length 10 with digits only and no duplicates exhausts the 8 digits. |
| `Scenarios.SymbolsBeginningWithLetter` | src/cli.ts:78-83 | Symbols only with a required letter start fails with `NoLettersAvailable`. |
| `Scenarios.Defaults` | src/cli.ts:93-149 | The prompt defaults (length 12; lower, upper and digits; letter start) give 12 characters from those classes, beginning with a letter. |

## Left out

- The interactive prompt chain and its `validate` callback (src/cli.ts:93-149) are interactive I/O. Only their default values appear, in `Scenarios.Defaults`. `length` is taken as a `nat`; non-integer and negative JavaScript numbers are not modelled.
- Printing the password with `chalk` and copying it with `clipboardy` (src/cli.ts:150-162) are foreign side effects and are left out, as is the promise-based error reporting.
- `Math.random()` and its floating-point scaling are left out. A draw is any index below the bound; the distribution is not modelled.
- DrawUnused: models only the draw that ends the `do…while`, not the rejected draws before it. The number of draws is not observable in the result.
- AlphabetExhausted: stands for the state in which the source's redraw loop runs forever; the source itself never reports it.
- The two thrown errors are modelled as `GenError` values; their message texts, JavaScript `Error` objects and throwing are not.
- JavaScript strings are UTF-16; every character involved here is ASCII, so a `char` code is its `charCodeAt(0)`.
