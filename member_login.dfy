/** The member login form (src/pages/auth/MemberLogin.tsx): a password path checked
    against `memberLoginSchema`, and a one-time-code path (send a code, enter it,
    verify) with a back step to sending again. */
module MemberLogin {
  import opened Optional
  import opened Roles
  import opened Text
  import AuthSlice

  datatype Field = EmailOrPhone | Password

  const MemberToken: string := "member-token"
  const MemberHome: string := "/dashboard/member"
  const MinContactLength: nat := 3
  const MinPasswordLength: nat := 6

  /** `memberLoginSchema.safeParse({emailOrPhone, password})`: the failing fields,
      with lengths counted in UTF-16 code units. */
  function SchemaErrors(emailOrPhone: string, password: string): (errs: set<Field>)
    ensures EmailOrPhone in errs <==> Utf16Length(emailOrPhone) < MinContactLength
    ensures Password in errs <==> Utf16Length(password) < MinPasswordLength
    ensures errs == {} <==> Utf16Length(emailOrPhone) >= MinContactLength && Utf16Length(password) >= MinPasswordLength
  {
    (if Utf16Length(emailOrPhone) >= MinContactLength then {} else {EmailOrPhone}) +
    (if Utf16Length(password) >= MinPasswordLength then {} else {Password})
  }

  /** The form's state. `error` is the one-time-code path's message line. */
  class MemberLoginForm {
    var phoneEmail: string
    var password: string
    var otpCode: string
    var errors: set<Field>
    var error: string
    var isLoading: bool
    var showOtpInput: bool
    var navigatedTo: Option<string>

    constructor ()
      ensures phoneEmail == "" && password == "" && otpCode == "" && errors == {} && error == ""
      ensures !isLoading && !showOtpInput && navigatedTo == None
    {
      phoneEmail, password, otpCode := "", "", "";
      errors := {};
      error := "";
      isLoading, showOtpInput := false, false;
      navigatedTo := None;
    }

    /** The `onChange` setters of the three inputs. */
    method Edit(field: Field, value: string)
      modifies this
      ensures phoneEmail == (if field == EmailOrPhone then value else old(phoneEmail))
      ensures password == (if field == Password then value else old(password))
      ensures otpCode == old(otpCode) && errors == old(errors) && error == old(error)
      ensures isLoading == old(isLoading) && showOtpInput == old(showOtpInput) && navigatedTo == old(navigatedTo)
    {
      match field
      case EmailOrPhone => phoneEmail := value;
      case Password => password := value;
    }

    method EditOtpCode(value: string)
      modifies this
      ensures otpCode == value
      ensures phoneEmail == old(phoneEmail) && password == old(password) && errors == old(errors)
      ensures error == old(error) && isLoading == old(isLoading) && showOtpInput == old(showOtpInput)
      ensures navigatedTo == old(navigatedTo)
    {
      otpCode := value;
    }

    /** `handlePasswordSubmit`: commit the member session and go to the member
        dashboard on a valid form; otherwise leave the store alone and list exactly
        the failing fields. */
    method HandlePasswordSubmit(store: AuthSlice.AuthStore)
      requires store.Valid()
      modifies this, store
      ensures store.Valid() && !isLoading
      ensures phoneEmail == old(phoneEmail) && password == old(password) && otpCode == old(otpCode)
      ensures error == old(error) && showOtpInput == old(showOtpInput)
      ensures SchemaErrors(phoneEmail, password) == {} ==>
                store.State() == AuthSlice.SignedIn(Member, MemberToken) &&
                store.storage == AuthSlice.StoreLogin(old(store.storage), Member, MemberToken) &&
                navigatedTo == Some(MemberHome) && errors == old(errors)
      ensures SchemaErrors(phoneEmail, password) != {} ==>
                store.State() == old(store.State()) && store.storage == old(store.storage) &&
                navigatedTo == old(navigatedTo) && errors == SchemaErrors(phoneEmail, password)
    {
      isLoading := true;
      var errs := SchemaErrors(phoneEmail, password);
      if errs == {} {
        store.LoginSuccess(Member, MemberToken);
        navigatedTo := Some(MemberHome);
      } else {
        errors := errs;
      }
      isLoading := false;
    }

    /** `handleSendOtp`: clear the message and show the code input. */
    method HandleSendOtp()
      modifies this
      ensures error == "" && showOtpInput && !isLoading
      ensures phoneEmail == old(phoneEmail) && password == old(password) && otpCode == old(otpCode)
      ensures errors == old(errors) && navigatedTo == old(navigatedTo)
    {
      isLoading := true;
      error := "";
      showOtpInput := true;
      isLoading := false;
    }

    /** The "Back to Send OTP" button: hide the code input, so a code can be sent again. */
    method BackToSendOtp()
      modifies this
      ensures !showOtpInput
      ensures phoneEmail == old(phoneEmail) && password == old(password) && otpCode == old(otpCode)
      ensures errors == old(errors) && error == old(error) && isLoading == old(isLoading)
      ensures navigatedTo == old(navigatedTo)
    {
      showOtpInput := false;
    }

    /** `handleOtpSubmit`: commits the member session whatever code was typed; the
        code is never inspected. */
    method HandleOtpSubmit(store: AuthSlice.AuthStore)
      requires store.Valid()
      modifies this, store
      ensures store.Valid() && !isLoading && error == ""
      ensures store.State() == AuthSlice.SignedIn(Member, MemberToken)
      ensures store.storage == AuthSlice.StoreLogin(old(store.storage), Member, MemberToken)
      ensures navigatedTo == Some(MemberHome)
      ensures phoneEmail == old(phoneEmail) && password == old(password) && otpCode == old(otpCode)
      ensures errors == old(errors) && showOtpInput == old(showOtpInput)
    {
      isLoading := true;
      error := "";
      store.LoginSuccess(Member, MemberToken);
      navigatedTo := Some(MemberHome);
      isLoading := false;
    }
  }
}
