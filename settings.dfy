/** The settings page: the profile form and the password form, their
    validation schemas, and what each submit handler does when validation
    passes or fails. */
module Settings {
  import opened Wrappers
  import opened JsText
  import opened JsNumber

  /** One validation problem: the field it is reported on and its message. */
  datatype Issue = Issue(field: string, message: string)

  // The schemas' messages.
  const FirstNameTooLong := "First name must be less than 100 characters"
  const LastNameTooLong := "Last name must be less than 100 characters"
  const UsernameTooShort := "Username must be at least 3 characters"
  const UsernameTooLong := "Username must be less than 30 characters"
  const PhoneTooShort := "Phone number must be at least 10 digits"
  const PhoneTooLong := "Phone number must be less than 20 digits"
  const LocationTooLong := "Location must be less than 200 characters"
  const LandSizeNotNumber := "Land size must be a number"
  const PasswordTooShort := "Password must be at least 6 characters"
  const PasswordsDiffer := "Passwords don't match"

  datatype Toast = ErrorToast(message: string) | SuccessToast(message: string)

  /** The profile form's six text fields, as typed. */
  datatype ProfileForm = ProfileForm(
    firstName: string, lastName: string, username: string,
    phoneNumber: string, location: string, landSize: string)

  /** The profile row the update writes. */
  datatype ProfileRow = ProfileRow(
    firstName: string, lastName: string, username: string,
    phoneNumber: string, location: string, landSize: Option<real>)

  /** A length bound on a trimmed field, checked the way the schema's string
      checks are: an issue for a minimum missed, then one for a maximum
      exceeded. */
  function Bounds(field: string, value: string, min: nat, minMessage: string, max: nat, maxMessage: string): seq<Issue> {
    var n := |Trim(value)|;
    (if n < min then [Issue(field, minMessage)] else [])
    + (if n > max then [Issue(field, maxMessage)] else [])
  }

  /** The profile schema's issues, field by field in the schema's order.
      Names, username, phone number and location are trimmed before their
      lengths are checked; the land size must be empty or a number. */
  function ProfileIssues(f: ProfileForm): seq<Issue> {
    Bounds("firstName", f.firstName, 0, "", 100, FirstNameTooLong)
    + Bounds("lastName", f.lastName, 0, "", 100, LastNameTooLong)
    + Bounds("username", f.username, 3, UsernameTooShort, 30, UsernameTooLong)
    + Bounds("phoneNumber", f.phoneNumber, 10, PhoneTooShort, 20, PhoneTooLong)
    + Bounds("location", f.location, 0, "", 200, LocationTooLong)
    + (if f.landSize == "" || IsNumberText(f.landSize) then [] else [Issue("landSize", LandSizeNotNumber)])
  }

  /** The password schema's issues: each field's minimum length, then, even
      when a minimum failed, the mismatch, reported on the confirmation. */
  function PasswordIssues(newPassword: string, confirmPassword: string): seq<Issue> {
    (if |newPassword| < 6 then [Issue("newPassword", PasswordTooShort)] else [])
    + (if |confirmPassword| < 6 then [Issue("confirmPassword", PasswordTooShort)] else [])
    + (if newPassword != confirmPassword then [Issue("confirmPassword", PasswordsDiffer)] else [])
  }

  /** The land-size column: null for an empty field, otherwise what
      `parseFloat` reads, where NaN travels as null. */
  function LandSizeColumn(landSize: string): Option<real> {
    if landSize == "" then None
    else
      var q := ParseFloat(landSize);
      if q.Finite? then Some(q.value) else None
  }

  /** The update sends the fields as typed, not trimmed. */
  function ProfileUpdate(f: ProfileForm): ProfileRow {
    ProfileRow(f.firstName, f.lastName, f.username, f.phoneNumber, f.location, LandSizeColumn(f.landSize))
  }

  /** The failure toast: the error's own message, or a fallback when it has
      none. */
  function FailureToast(message: string, fallback: string): Toast {
    ErrorToast(if message != "" then message else fallback)
  }

  /** The signed-in user's profile row and password. */
  class Account {
    var profile: ProfileRow
    var password: string

    constructor (profile: ProfileRow, password: string)
      ensures this.profile == profile && this.password == password
    {
      this.profile := profile;
      this.password := password;
    }
  }

  /** The page's form fields and busy flags. */
  class SettingsPage {
    var form: ProfileForm
    var isUpdatingProfile: bool
    var newPassword: string
    var confirmPassword: string
    var isChangingPassword: bool

    constructor ()
      ensures form == ProfileForm("", "", "", "", "", "")
      ensures !isUpdatingProfile && newPassword == "" && confirmPassword == "" && !isChangingPassword
    {
      form := ProfileForm("", "", "", "", "", "");
      isUpdatingProfile := false;
      newPassword := "";
      confirmPassword := "";
      isChangingPassword := false;
    }

    /** `handleProfileUpdate`: an invalid form shows its first issue and
        sends nothing; a valid one writes the fields as typed, unless the
        store answers with `updateError`. The busy flag is cleared in every
        case. */
    method HandleProfileUpdate(updateError: Option<string>, account: Account) returns (toast: Toast)
      modifies this`isUpdatingProfile, account`profile
      ensures !isUpdatingProfile
      ensures ProfileIssues(form) != [] ==>
        toast == ErrorToast(ProfileIssues(form)[0].message) && account.profile == old(account.profile)
      ensures ProfileIssues(form) == [] && updateError.None? ==>
        toast == SuccessToast("Profile updated successfully") && account.profile == ProfileUpdate(form)
      ensures ProfileIssues(form) == [] && updateError.Some? ==>
        toast == FailureToast(updateError.value, "Failed to update profile") && account.profile == old(account.profile)
    {
      isUpdatingProfile := true;
      var issues := ProfileIssues(form);
      if issues != [] {
        toast := ErrorToast(issues[0].message);
      } else if updateError.Some? {
        toast := FailureToast(updateError.value, "Failed to update profile");
      } else {
        account.profile := ProfileUpdate(form);
        toast := SuccessToast("Profile updated successfully");
      }
      isUpdatingProfile := false;
    }

    /** `handlePasswordChange`: an invalid pair shows its first issue and
        sends nothing; a valid one sets the new password unless the store
        answers with `updateError`. The fields are cleared only on success;
        the busy flag always. */
    method HandlePasswordChange(updateError: Option<string>, account: Account) returns (toast: Toast)
      modifies this`newPassword, this`confirmPassword, this`isChangingPassword, account`password
      ensures !isChangingPassword
      ensures var issues := PasswordIssues(old(newPassword), old(confirmPassword));
        if issues != [] then
          toast == ErrorToast(issues[0].message) && account.password == old(account.password)
          && newPassword == old(newPassword) && confirmPassword == old(confirmPassword)
        else if updateError.Some? then
          toast == FailureToast(updateError.value, "Failed to update password") && account.password == old(account.password)
          && newPassword == old(newPassword) && confirmPassword == old(confirmPassword)
        else
          toast == SuccessToast("Password updated successfully") && account.password == old(newPassword)
          && newPassword == "" && confirmPassword == ""
    {
      isChangingPassword := true;
      var issues := PasswordIssues(newPassword, confirmPassword);
      if issues != [] {
        toast := ErrorToast(issues[0].message);
      } else if updateError.Some? {
        toast := FailureToast(updateError.value, "Failed to update password");
      } else {
        account.password := newPassword;
        toast := SuccessToast("Password updated successfully");
        newPassword := "";
        confirmPassword := "";
      }
      isChangingPassword := false;
    }
  }

  // ---------------------------------------------------------------------
  // Properties

  /** A bounded field is valid exactly when its trimmed length is within
      the bounds. */
  lemma BoundsValid(field: string, value: string, min: nat, minMessage: string, max: nat, maxMessage: string)
    ensures Bounds(field, value, min, minMessage, max, maxMessage) == [] <==> min <= |Trim(value)| <= max
  {
  }

  /** The profile form is valid exactly when both names are at most 100
      characters after trimming, the username 3 to 30, the phone number 10
      to 20 (characters, not digits), the location at most 200, and the land
      size is empty or a number. */
  lemma ProfileValid(f: ProfileForm)
    ensures ProfileIssues(f) == [] <==>
      && |Trim(f.firstName)| <= 100 && |Trim(f.lastName)| <= 100
      && 3 <= |Trim(f.username)| <= 30
      && 10 <= |Trim(f.phoneNumber)| <= 20
      && |Trim(f.location)| <= 200
      && (f.landSize == "" || IsNumberText(f.landSize))
  {
    var a := Bounds("firstName", f.firstName, 0, "", 100, FirstNameTooLong);
    var b := Bounds("lastName", f.lastName, 0, "", 100, LastNameTooLong);
    var c := Bounds("username", f.username, 3, UsernameTooShort, 30, UsernameTooLong);
    var d := Bounds("phoneNumber", f.phoneNumber, 10, PhoneTooShort, 20, PhoneTooLong);
    var e := Bounds("location", f.location, 0, "", 200, LocationTooLong);
    var g := if f.landSize == "" || IsNumberText(f.landSize) then [] else [Issue("landSize", LandSizeNotNumber)];
    assert ProfileIssues(f) == a + b + c + d + e + g;
    assert |ProfileIssues(f)| == |a| + |b| + |c| + |d| + |e| + |g|;
    BoundsValid("firstName", f.firstName, 0, "", 100, FirstNameTooLong);
    BoundsValid("lastName", f.lastName, 0, "", 100, LastNameTooLong);
    BoundsValid("username", f.username, 3, UsernameTooShort, 30, UsernameTooLong);
    BoundsValid("phoneNumber", f.phoneNumber, 10, PhoneTooShort, 20, PhoneTooLong);
    BoundsValid("location", f.location, 0, "", 200, LocationTooLong);
  }

  /** The message shown for an invalid form belongs to the first field, in
      the form's order, that breaks its rule: a short username is reported
      before a bad phone number. */
  lemma UsernameReportedFirst(f: ProfileForm)
    requires |Trim(f.firstName)| <= 100 && |Trim(f.lastName)| <= 100
    requires |Trim(f.username)| < 3
    ensures ProfileIssues(f)[0] == Issue("username", UsernameTooShort)
  {
  }

  /** A password pair is valid exactly when the new password has at least
      six characters and the confirmation equals it. */
  lemma PasswordValid(newPassword: string, confirmPassword: string)
    ensures PasswordIssues(newPassword, confirmPassword) == [] <==>
      |newPassword| >= 6 && newPassword == confirmPassword
  {
  }

  /** A mismatch is reported on the confirmation field, after any length
      issue; two long enough passwords that differ show the mismatch. */
  lemma MismatchOnConfirmation(newPassword: string, confirmPassword: string)
    requires newPassword != confirmPassword
    ensures var issues := PasswordIssues(newPassword, confirmPassword);
      issues[|issues| - 1] == Issue("confirmPassword", PasswordsDiffer)
    ensures |newPassword| >= 6 && |confirmPassword| >= 6 ==>
      PasswordIssues(newPassword, confirmPassword) == [Issue("confirmPassword", PasswordsDiffer)]
  {
  }

  /** A land size of white space alone passes validation, as `Number` reads
      it as 0, but is stored as null, as `parseFloat` reads it as NaN. */
  lemma BlankLandSize(landSize: string)
    requires landSize != "" && AllSpace(landSize)
    ensures IsNumberText(landSize)
    ensures LandSizeColumn(landSize) == None
  {
    assert Trim(landSize) == [];
    ParseFloatNoNumber(landSize);
  }

  /** A plain decimal land size is stored as its value. */
  lemma DecimalLandSize(negative: bool, whole: string, frac: string)
    requires whole != [] && AllDigits(whole) && AllDigits(frac)
    ensures var t := DecimalText(negative, whole, frac);
      IsNumberText(t) && LandSizeColumn(t) == Some(DecimalValue(negative, whole, frac))
  {
    NumberAcceptsDecimalText(negative, whole, frac);
    ParseFloatDecimalText(negative, whole, frac);
  }
}
