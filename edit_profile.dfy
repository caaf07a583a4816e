/**
 * The edit-profile form (Settings/EditProfileView.swift): its fields are
 * seeded from the signed-in user, and its validity rule enables "Update
 * Profile".
 */
module EditProfile {

  /** The signed-in user's profile. */
  datatype User = User(id: string, firstName: string, lastName: string, email: string, currency: string)

  /** The state of the form. */
  datatype ProfileForm = ProfileForm(
    email: string, firstName: string, lastName: string, password: string, newPassword: string, currency: string)

  /** `init`: the names, email and currency from the user, both password fields empty. */
  function ProfileFormOf(u: User): (f: ProfileForm)
    ensures f.firstName == u.firstName && f.lastName == u.lastName
    ensures f.email == u.email && f.currency == u.currency
    ensures f.password == [] && f.newPassword == []
  {
    ProfileForm(u.email, u.firstName, u.lastName, "", "", u.currency)
  }

  /** No basic field is empty. */
  predicate BasicInfoIsValid(f: ProfileForm) {
    f.email != "" && f.firstName != "" && f.lastName != ""
  }

  /** `formIsValid`: the basic fields filled, or an acceptable new password that differs from the current one. */
  function FormIsValid(f: ProfileForm): (ok: bool)
    ensures BasicInfoIsValid(f) ==> ok
    ensures !BasicInfoIsValid(f) ==> (ok <==> (|f.newPassword| == 0 || |f.newPassword| >= 6) && f.password != f.newPassword)
  {
    var basicInfoIsValid := f.email != "" && f.firstName != "" && f.lastName != "";
    var newPasswordIsValid := f.newPassword == "" || |f.newPassword| >= 6;
    basicInfoIsValid || (newPasswordIsValid && f.password != f.newPassword)
  }

  /** With the basic fields filled, the password fields do not matter. */
  lemma PasswordsIrrelevantWithBasicInfo(f: ProfileForm, password: string, newPassword: string)
    requires BasicInfoIsValid(f)
    ensures FormIsValid(f.(password := password, newPassword := newPassword))
  {
  }

  /** A user with an empty name or email opens an invalid form: both passwords start empty, hence equal. */
  lemma OpeningFormInvalidWithoutBasicInfo(u: User)
    requires u.email == [] || u.firstName == [] || u.lastName == []
    ensures !FormIsValid(ProfileFormOf(u))
  {
  }

  /** A new password of 1 to 5 characters never validates the form when a basic field is empty. */
  lemma ShortNewPasswordInvalid(f: ProfileForm)
    requires !BasicInfoIsValid(f)
    requires 1 <= |f.newPassword| <= 5
    ensures !FormIsValid(f)
  {
  }

  /** A user with a complete profile opens a valid form. */
  lemma CompleteProfileOpensValid(u: User)
    requires u.email != [] && u.firstName != [] && u.lastName != []
    ensures FormIsValid(ProfileFormOf(u))
  {
  }
}
