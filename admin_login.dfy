/** The admin login form (src/pages/auth/AdminLogin.tsx): an email and a password,
    checked against `adminLoginSchema`; success commits the fixed admin session and
    navigates to the admin dashboard, failure records which fields failed. The
    schema's email check is zod's own pattern and enters as the parameter `isEmail`. */
module AdminLogin {
  import opened Optional
  import opened Roles
  import opened Text
  import AuthSlice

  datatype Field = Email | Password

  const AdminToken: string := "admin-token"
  const AdminHome: string := "/dashboard/admin"
  const MinPasswordLength: nat := 6

  /** `adminLoginSchema.safeParse`: the fields that fail, empty exactly when the
      parse succeeds. `min(6)` counts UTF-16 code units. */
  function SchemaErrors(email: string, password: string, isEmail: string -> bool): (errs: set<Field>)
    ensures Email in errs <==> !isEmail(email)
    ensures Password in errs <==> Utf16Length(password) < MinPasswordLength
    ensures errs == {} <==> isEmail(email) && Utf16Length(password) >= MinPasswordLength
  {
    (if isEmail(email) then {} else {Email}) +
    (if Utf16Length(password) >= MinPasswordLength then {} else {Password})
  }

  /** A password shorter than six code units is refused whatever the email. */
  lemma ShortPasswordRefused(email: string, password: string, isEmail: string -> bool)
    requires Utf16Length(password) < MinPasswordLength
    ensures Password in SchemaErrors(email, password, isEmail)
  {
  }

  /** In characters: six or more always pass the length check, fewer than three
      never do, and in between it depends on how many lie outside the Basic
      Multilingual Plane. */
  lemma PasswordLengthInCharacters(email: string, password: string, isEmail: string -> bool)
    ensures |password| >= MinPasswordLength ==> Password !in SchemaErrors(email, password, isEmail)
    ensures |password| < MinPasswordLength / 2 ==> Password in SchemaErrors(email, password, isEmail)
  {
  }

  /** Three emoji are six code units, so they pass the length check. */
  lemma ThreeEmojiPasswordLongEnough(email: string, isEmail: string -> bool)
    ensures Password !in SchemaErrors(email, "\U{1F600}\U{1F600}\U{1F600}", isEmail)
  {
    var pw := "\U{1F600}\U{1F600}\U{1F600}";
    assert pw[1..] == "\U{1F600}\U{1F600}" && pw[1..][1..] == "\U{1F600}";
    assert Utf16Length("\U{1F600}") == 2;
  }

  /** The form's state: `formData`, `errors`, `isLoading`, and the last navigation target. */
  class AdminLoginForm {
    var email: string
    var password: string
    var errors: set<Field>
    var isLoading: bool
    var navigatedTo: Option<string>

    constructor ()
      ensures email == "" && password == "" && errors == {} && !isLoading && navigatedTo == None
    {
      email, password := "", "";
      errors := {};
      isLoading := false;
      navigatedTo := None;
    }

    /** `handleChange`: the input named `field` takes `value`; the other keeps its value. */
    method HandleChange(field: Field, value: string)
      modifies this
      ensures email == (if field == Email then value else old(email))
      ensures password == (if field == Password then value else old(password))
      ensures errors == old(errors) && isLoading == old(isLoading) && navigatedTo == old(navigatedTo)
    {
      match field
      case Email => email := value;
      case Password => password := value;
    }

    /** `handleSubmit`. On a valid form the admin session is committed and the form
        navigates to the admin dashboard (the errors of an earlier attempt stay as
        they were); otherwise the store is untouched and `errors` is replaced by
        the failing fields. Either way `isLoading` is false at the end. */
    method HandleSubmit(store: AuthSlice.AuthStore, isEmail: string -> bool)
      requires store.Valid()
      modifies this, store
      ensures store.Valid() && !isLoading
      ensures email == old(email) && password == old(password)
      ensures SchemaErrors(email, password, isEmail) == {} ==>
                store.State() == AuthSlice.SignedIn(Admin, AdminToken) &&
                store.storage == AuthSlice.StoreLogin(old(store.storage), Admin, AdminToken) &&
                navigatedTo == Some(AdminHome) && errors == old(errors)
      ensures SchemaErrors(email, password, isEmail) != {} ==>
                store.State() == old(store.State()) && store.storage == old(store.storage) &&
                navigatedTo == old(navigatedTo) && errors == SchemaErrors(email, password, isEmail)
    {
      isLoading := true;
      var errs := SchemaErrors(email, password, isEmail);
      if errs == {} {
        store.LoginSuccess(Admin, AdminToken);
        navigatedTo := Some(AdminHome);
      } else {
        errors := errs;
      }
      isLoading := false;
    }
  }
}
