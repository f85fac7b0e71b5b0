/** Field rules shared by the account page (`client/src/pages/account.tsx`) and the
    sign-in modal (`client/src/components/modals/auth-modal.tsx`). A form value is
    checked rule by rule; each rule that fails adds one issue on its field's path.
    Email shape is decided by a predicate passed in. */
module Forms {
  import opened Text

  /** The form key an issue is reported on. */
  datatype Field = FirstName | LastName | Email | Password | CurrentPassword | NewPassword | ConfirmPassword | Terms

  datatype Issue = Issue(path: Field, message: string)

  // The messages the rules report.
  const TooShort8: string := "Password must be at least 8 characters"
  const NoNumber: string := "Password must contain at least one number"
  const NoSpecial: string := "Password must contain at least one special character"
  const FirstNameRequired: string := "First name is required"
  const LastNameRequired: string := "Last name is required"

  /** One rule: no issue when it holds, one issue on `path` when it does not. */
  function Rule(holds: bool, path: Field, message: string): (r: seq<Issue>)
    ensures r == [] <==> holds
    ensures forall k :: 0 <= k < |r| ==> r[k] == Issue(path, message)
  {
    if holds then [] else [Issue(path, message)]
  }

  /** `/[0-9]/` finds a match. */
  predicate HasDigit(s: string) {
    exists i :: 0 <= i < |s| && IsDigit(s[i])
  }

  predicate IsAsciiAlnum(c: char) {
    ('a' <= c <= 'z') || ('A' <= c <= 'Z') || ('0' <= c <= '9')
  }

  /** `/[^a-zA-Z0-9]/` finds a match. */
  predicate HasSpecial(s: string) {
    exists i :: 0 <= i < |s| && !IsAsciiAlnum(s[i])
  }

  /** The password rule both forms use for a new password: at least 8 characters,
      a digit and a character outside `[a-zA-Z0-9]`, each reported on its own. */
  function StrongPasswordIssues(path: Field, password: string): (r: seq<Issue>)
    ensures r == [] <==> |password| >= 8 && HasDigit(password) && HasSpecial(password)
    ensures forall k :: 0 <= k < |r| ==> r[k].path == path
    ensures Issue(path, TooShort8) in r <==> |password| < 8
    ensures Issue(path, NoNumber) in r <==> !HasDigit(password)
    ensures Issue(path, NoSpecial) in r <==> !HasSpecial(password)
  {
    Rule(|password| >= 8, path, TooShort8)
    + Rule(HasDigit(password), path, NoNumber)
    + Rule(HasSpecial(password), path, NoSpecial)
  }

  /** A strong password also meets the weaker "at least 6 characters" rule that
      the login form and the current-password field apply. */
  lemma StrongPasswordIsLongEnough(path: Field, password: string)
    requires StrongPasswordIssues(path, password) == []
    ensures |password| >= 6
  {
  }

  /** No password of fewer than 8 characters, none made only of letters and
      digits, and none without a digit is strong. */
  lemma WeakPasswords(path: Field, password: string)
    ensures (forall i :: 0 <= i < |password| ==> IsAsciiAlnum(password[i])) ==> StrongPasswordIssues(path, password) != []
    ensures (forall i :: 0 <= i < |password| ==> !IsDigit(password[i])) ==> StrongPasswordIssues(path, password) != []
  {
  }

  /** A digit is a letter-or-digit, so the two character rules need two different
      characters: a strong password has a digit and, elsewhere, a special character. */
  lemma StrongPasswordHasTwoKinds(path: Field, password: string)
    requires StrongPasswordIssues(path, password) == []
    ensures exists i, j :: 0 <= i < |password| && 0 <= j < |password| && i != j
                           && IsDigit(password[i]) && !IsAsciiAlnum(password[j])
  {
    var i :| 0 <= i < |password| && IsDigit(password[i]);
    var j :| 0 <= j < |password| && !IsAsciiAlnum(password[j]);
    assert IsAsciiAlnum(password[i]);
  }
}
