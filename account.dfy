/** The account page (`client/src/pages/account.tsx`): the profile and password
    form rules, the values the profile form is loaded with, and the body of the
    password change request. */
module Account {
  import opened Wrappers
  import opened Forms
  import opened Storage
  import Routes

  const EmailRequired: string := "Email is required"
  const InvalidEmail: string := "Invalid email address"
  const PasswordsDiffer: string := "Passwords do not match"
  const CurrentRequired: string := "Current password is required"
  const ConfirmRequired: string := "Please confirm your password"

  /** The profile form's values; the optional keys are `None` when left out. */
  datatype ProfileForm = ProfileForm(
    firstName: string,
    lastName: string,
    email: string,
    location: Option<string>,
    username: Option<string>,
    age: Option<int>,
    gender: Option<string>,
    customerSegment: Option<string>)

  /** The profile rules: both names non-empty, the email non-empty and
      email-shaped; the optional keys are never rejected. */
  function ProfileIssues(f: ProfileForm, isEmail: string -> bool): (r: seq<Issue>)
    ensures r == [] <==> f.firstName != "" && f.lastName != "" && f.email != "" && isEmail(f.email)
    ensures Issue(FirstName, FirstNameRequired) in r <==> f.firstName == ""
    ensures Issue(LastName, LastNameRequired) in r <==> f.lastName == ""
    ensures Issue(Email, EmailRequired) in r <==> f.email == ""
    ensures Issue(Email, InvalidEmail) in r <==> !isEmail(f.email)
    ensures forall k :: 0 <= k < |r| ==> r[k].path == FirstName || r[k].path == LastName || r[k].path == Email
  {
    var names := Rule(f.firstName != "", FirstName, FirstNameRequired)
      + Rule(f.lastName != "", LastName, LastNameRequired);
    var email := Rule(isEmail(f.email), Email, InvalidEmail) + Rule(f.email != "", Email, EmailRequired);
    assert forall k :: 0 <= k < |email| ==> email[k].path == Email;
    names + email
  }

  datatype PasswordForm = PasswordForm(currentPassword: string, newPassword: string, confirmPassword: string)

  /** The password rules; the mismatch check is reported on `confirmPassword`. */
  function PasswordIssues(f: PasswordForm): (r: seq<Issue>)
    ensures r == [] <==>
      |f.currentPassword| >= 6 && StrongPasswordIssues(NewPassword, f.newPassword) == []
      && |f.confirmPassword| >= 8 && f.newPassword == f.confirmPassword
    ensures Issue(ConfirmPassword, PasswordsDiffer) in r <==> f.newPassword != f.confirmPassword
    ensures Issue(CurrentPassword, CurrentRequired) in r <==> |f.currentPassword| < 6
    ensures Issue(ConfirmPassword, ConfirmRequired) in r <==> |f.confirmPassword| < 8
  {
    var current := Rule(|f.currentPassword| >= 6, CurrentPassword, CurrentRequired);
    var strong := StrongPasswordIssues(NewPassword, f.newPassword);
    var confirm := Rule(|f.confirmPassword| >= 8, ConfirmPassword, ConfirmRequired);
    var mismatch := Rule(f.newPassword == f.confirmPassword, ConfirmPassword, PasswordsDiffer);
    current + strong + confirm + mismatch
  }

  /** The issues on `newPassword` are exactly those of the strong-password rule:
      the mismatch is never reported there. */
  lemma NewPasswordIssues(f: PasswordForm, x: Issue)
    ensures x in PasswordIssues(f) && x.path == NewPassword <==> x in StrongPasswordIssues(NewPassword, f.newPassword)
  {
    if x in StrongPasswordIssues(NewPassword, f.newPassword) {
      var k :| 0 <= k < |StrongPasswordIssues(NewPassword, f.newPassword)| && StrongPasswordIssues(NewPassword, f.newPassword)[k] == x;
    }
  }

  /** When the two new passwords match, the confirmation rule adds nothing the
      new-password rule does not already demand. */
  lemma MatchingConfirmation(f: PasswordForm)
    requires f.newPassword == f.confirmPassword
    requires |f.currentPassword| >= 6
    ensures PasswordIssues(f) == [] <==> StrongPasswordIssues(NewPassword, f.newPassword) == []
  {
  }

  /** The body of `PATCH /api/user/password`: the confirmation is not sent. */
  datatype PasswordRequest = PasswordRequest(currentPassword: string, newPassword: string)

  function PasswordRequestOf(f: PasswordForm): (req: PasswordRequest)
    ensures req.currentPassword == f.currentPassword && req.newPassword == f.newPassword
  {
    PasswordRequest(f.currentPassword, f.newPassword)
  }

  /** The request does not depend on the confirmation field. */
  lemma PasswordRequestIgnoresConfirmation(f: PasswordForm, confirm: string)
    ensures PasswordRequestOf(f.(confirmPassword := confirm)) == PasswordRequestOf(f)
  {
  }

  /** JavaScript `s || ""` / `s || null` on an optional string. */
  function StringOr(s: Option<string>, fallback: string): string {
    if s.Some? && s.value != "" then s.value else fallback
  }

  function TruthyString(s: Option<string>): Option<string> {
    if s.Some? && s.value != "" then s else None
  }

  /** The form values loaded from the profile: a missing string becomes "", and a
      falsy age (missing or 0), gender or segment becomes null. */
  function ProfileValues(user: Option<User>): (r: Option<ProfileForm>)
    ensures r.None? <==> user.None?
    ensures r.Some? ==> (r.value.firstName == user.value.firstName.GetOr("")
                         && r.value.lastName == user.value.lastName.GetOr("")
                         && r.value.email == user.value.email
                         && r.value.location == Some(user.value.location.GetOr(""))
                         && r.value.username == Some(user.value.username))
    ensures r.Some? ==> (r.value.age.None? <==> user.value.age.None? || user.value.age == Some(0))
    ensures r.Some? && r.value.age.Some? ==> r.value.age == user.value.age
    ensures r.Some? ==> (r.value.gender.None? <==> user.value.gender.None? || user.value.gender == Some(""))
    ensures r.Some? ==> (r.value.customerSegment.None? <==> user.value.customerSegment.None? || user.value.customerSegment == Some(""))
  {
    if user.None? then None
    else
      var u := user.value;
      Some(ProfileForm(
        StringOr(u.firstName, ""),
        StringOr(u.lastName, ""),
        StringOr(Some(u.email), ""),
        Some(StringOr(u.location, "")),
        Some(StringOr(Some(u.username), "")),
        if u.age.Some? && u.age.value != 0 then u.age else None,
        TruthyString(u.gender),
        TruthyString(u.customerSegment)))
  }

  /** The profile form sends all its values; the server picks the four columns it
      writes. */
  function ProfileBodyOf(f: ProfileForm): (body: Routes.ProfileBody)
    ensures body.firstName == Some(f.firstName) && body.lastName == Some(f.lastName)
    ensures body.email == Some(f.email) && body.location == f.location
  {
    Routes.ProfileBody(Some(f.firstName), Some(f.lastName), Some(f.email), f.location)
  }

  /** A submitted profile form always defines the first name, so the update it
      causes never builds the empty SET list that fails on the server. */
  lemma ProfileFormTouchesColumns(f: ProfileForm)
    ensures TouchesColumns(Routes.PatchOf(ProfileBodyOf(f)))
    ensures Routes.PatchOf(ProfileBodyOf(f)).username.None? && Routes.PatchOf(ProfileBodyOf(f)).age.None?
  {
  }
}
