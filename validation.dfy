/** What the request schemas of the login, user and proxy services share:
    the issues a zod parse reports, the character-class tests
    (`/[A-Z]/.test(s)` and the like), the two anchored patterns they use and
    the role enumeration. Regular expressions here have no `u` flag, so a
    character is one UTF-16 code unit and `\d` is `[0-9]`. */
module Validation {
  import opened Wrappers
  import opened JsText

  /** One problem a parse reports: the offending field and the message. */
  datatype Issue = Issue(path: string, message: string)

  /** The character classes the patterns use. */
  datatype CharClass = Upper | LowerCase | Digit | NonAlnum | NonWord | NonDigit

  /** `[A-Z]`, `[a-z]`, `[0-9]`, `[^A-Za-z0-9]`, `[^A-Za-z0-9_]`, `[^0-9]`. */
  predicate InClass(c: char, cls: CharClass)
  {
    match cls
    case Upper => IsUpper(c)
    case LowerCase => IsLower(c)
    case Digit => IsDigit(c)
    case NonAlnum => !IsAlnum(c)
    case NonWord => !IsAlnum(c) && c != '_'
    case NonDigit => !IsDigit(c)
  }

  /** Where an unanchored `/[class]/` first matches, scanning left to
      right. */
  function Search(s: string, cls: CharClass): (r: Option<nat>)
    ensures r.Some? ==> r.value < |s| && InClass(s[r.value], cls)
    ensures r.Some? ==> forall i :: 0 <= i < r.value ==> !InClass(s[i], cls)
    ensures r.None? ==> forall i :: 0 <= i < |s| ==> !InClass(s[i], cls)
  {
    if s == [] then None
    else if InClass(s[0], cls) then Some(0)
    else
      match Search(s[1..], cls)
      case None => None
      case Some(k) => Some(k + 1)
  }

  /** `/[class]/.test(s)`. */
  predicate Test(s: string, cls: CharClass)
  {
    Search(s, cls).Some?
  }

  /** A test succeeds exactly when some character is in the class. */
  lemma TestIff(s: string, cls: CharClass)
    ensures Test(s, cls) <==> exists i :: 0 <= i < |s| && InClass(s[i], cls)
  {
  }

  /** A username character, `[A-Za-z0-9_]`. */
  predicate IsWordChar(c: char)
  {
    IsAlnum(c) || c == '_'
  }

  /** `/^[A-Za-z0-9_]+$/.test(s)`: non-empty, and no character outside the
      class. */
  function MatchWord(s: string): (b: bool)
    ensures b <==> |s| >= 1 && forall i :: 0 <= i < |s| ==> IsWordChar(s[i])
  {
    |s| >= 1 && !Test(s, NonWord)
  }

  /** `/^\+?[0-9]{8,15}$/.test(s)`: an optional plus, then 8 to 15 digits
      and nothing else. */
  function MatchPhone(s: string): (b: bool)
  {
    var digits := if |s| > 0 && s[0] == '+' then s[1..] else s;
    8 <= |digits| <= 15 && !Test(digits, NonDigit)
  }

  /** The phone pattern accepts exactly a bare run of 8 to 15 digits, or
      one behind a single plus. */
  lemma MatchPhoneIff(s: string)
    ensures MatchPhone(s) <==>
      || (AllDigits(s) && 8 <= |s| <= 15)
      || (|s| > 0 && s[0] == '+' && AllDigits(s[1..]) && 9 <= |s| <= 16)
  {
    var digits := if |s| > 0 && s[0] == '+' then s[1..] else s;
    assert Test(digits, NonDigit) <==> !AllDigits(digits) by {
      if Test(digits, NonDigit) {
        assert !IsDigit(digits[Search(digits, NonDigit).value]);
      }
    }
  }

  /** A string the phone pattern accepts has no space at either end, so
      trimming it changes nothing. */
  lemma PhoneHasNoOuterSpace(s: string)
    requires MatchPhone(s)
    ensures NoOuterSpace(s) && s != []
  {
    MatchPhoneIff(s);
  }

  /** The accounts' roles, `z.enum(["gardener", "admin"])`. */
  datatype Role = Gardener | Admin

  function RoleName(r: Role): string
  {
    match r
    case Gardener => "gardener"
    case Admin => "admin"
  }

  /** The role field: one of the two names, else "Invalid role type". */
  function ParseRole(s: string): (r: Result<Role, Issue>)
    ensures r.Ok? <==> s == "gardener" || s == "admin"
    ensures r.Ok? ==> RoleName(r.value) == s
    ensures r.Err? ==> r.error == Issue("role", "Invalid role type")
  {
    if s == "gardener" then Ok(Gardener)
    else if s == "admin" then Ok(Admin)
    else Err(Issue("role", "Invalid role type"))
  }

  /** Reading back a role's name gives the role. */
  lemma RoleRoundTrip(r: Role)
    ensures ParseRole(RoleName(r)) == Ok(r)
  {
  }

  /** The issue of a check, if it fails. */
  function Check(ok: bool, path: string, message: string): (issues: seq<Issue>)
    ensures issues == [] <==> ok
    ensures !ok ==> issues == [Issue(path, message)]
  {
    if ok then [] else [Issue(path, message)]
  }
}
