/** The ISO 639-1 registry: the two-letter language codes `/translator set` accepts. */
module Registry {
  import opened Base
  import opened Text

  /**
   * The registered codes, one row per initial letter as the registry lists them:
   * `Followers(f)` holds the second letters of the codes that start with `f`, so the
   * row `'a' => "abe..."` stands for the codes "aa", "ab", "ae", ...
   */
  function Followers(initial: char): string {
    match initial
    case 'a' => "abefkmnrsvyz"
    case 'b' => "aeghimnors"
    case 'c' => "aehorsuvy"
    case 'd' => "aevz"
    case 'e' => "elnostu"
    case 'f' => "afijory"
    case 'g' => "adlnuv"
    case 'h' => "aeiortuyz"
    case 'i' => "adegikostu"
    case 'j' => "av"
    case 'k' => "agijklmnorsuvwy"
    case 'l' => "abginotuv"
    case 'm' => "ghiklnrsty"
    case 'n' => "abdeglnorvy"
    case 'o' => "cjmrs"
    case 'p' => "ailst"
    case 'q' => "u"
    case 'r' => "mnouw"
    case 's' => "acdegiklmnoqrstuvw"
    case 't' => "aeghiklnorstwy"
    case 'u' => "gkrz"
    case 'v' => "eio"
    case 'w' => "ao"
    case 'x' => "h"
    case 'y' => "io"
    case 'z' => "ahu"
    case _ => ""
  }

  /**
   * Membership in `codes()`, the frozen set the registry's constructor builds.
   * The set never changes, so its membership test is a constant predicate.
   */
  predicate IsRegistered(code: string) {
    |code| == 2 && code[1] in Followers(code[0])
  }

  /** `isValid(code)`: a non-null code whose lower-case form is registered. */
  predicate IsValid(code: Option<string>) {
    code.Some? && IsRegistered(ToLower(code.value))
  }

  /** An ASCII lower-case letter. */
  predicate IsLowerLetter(c: char) {
    'a' <= c <= 'z'
  }

  /** `isValid(null)` is false. */
  lemma NullIsInvalid()
    ensures !IsValid(None)
  {
  }

  /** Validity ignores case: a code and its lower-case form are judged alike. */
  lemma IsValidIgnoresCase(code: string)
    ensures IsValid(Some(code)) == IsValid(Some(ToLower(code)))
  {
    ToLowerIdempotent(code);
  }

  /** Only the rows of initials `a`..`z` are non-empty. */
  lemma InitialIsLetter(initial: char)
    requires Followers(initial) != ""
    ensures IsLowerLetter(initial)
  {
  }

  /** The rows for `a`..`f` hold lower-case letters only. */
  lemma FollowersAreLettersAToF(initial: char, second: char)
    requires initial <= 'f' && second in Followers(initial)
    ensures IsLowerLetter(second)
  {
  }

  /** The rows for `g`..`m` hold lower-case letters only. */
  lemma FollowersAreLettersGToM(initial: char, second: char)
    requires 'g' <= initial <= 'm' && second in Followers(initial)
    ensures IsLowerLetter(second)
  {
  }

  /** The rows for `n`..`s` hold lower-case letters only. */
  lemma FollowersAreLettersNToS(initial: char, second: char)
    requires 'n' <= initial <= 's' && second in Followers(initial)
    ensures IsLowerLetter(second)
  {
  }

  /** The rows for `t`..`z` hold lower-case letters only. */
  lemma FollowersAreLettersTToZ(initial: char, second: char)
    requires initial >= 't' && second in Followers(initial)
    ensures IsLowerLetter(second)
  {
  }

  /** Every registered code is two lower-case ASCII letters. */
  lemma RegisteredIsTwoLowerLetters(code: string)
    requires IsRegistered(code)
    ensures |code| == 2 && IsLowerLetter(code[0]) && IsLowerLetter(code[1])
  {
    InitialIsLetter(code[0]);
    if code[0] <= 'f' {
      FollowersAreLettersAToF(code[0], code[1]);
    } else if code[0] <= 'm' {
      FollowersAreLettersGToM(code[0], code[1]);
    } else if code[0] <= 's' {
      FollowersAreLettersNToS(code[0], code[1]);
    } else {
      FollowersAreLettersTToZ(code[0], code[1]);
    }
  }

  /** Every code the registry lists passes its own validity test. */
  lemma RegisteredIsValid(code: string)
    requires IsRegistered(code)
    ensures IsValid(Some(code))
  {
    RegisteredIsTwoLowerLetters(code);
    LowerFixed(code);
  }

  /** A valid code, lower-cased, is a registered two-letter lower-case code. */
  lemma ValidIsRegistered(code: string)
    requires IsValid(Some(code))
    ensures IsRegistered(ToLower(code)) && |code| == 2 && IsLower(ToLower(code))
  {
    RegisteredIsTwoLowerLetters(ToLower(code));
  }

  /** Upper-case input is accepted; unknown and three-letter codes are not. */
  lemma ValidityExamples()
    ensures IsValid(Some("ES")) && IsValid(Some("en")) && IsValid(Some("zu"))
    ensures !IsValid(Some("qq")) && !IsValid(Some("eng")) && !IsValid(Some(""))
  {
  }
}
