/** The login form: three text fields edited one at a time and a submit
    that logs in only when all three are filled. */
module WelcomeScreen {
  import opened Numbers
  import opened QuizTypes

  /** The presence check: every field non-empty. */
  predicate CanLogin(data: LoginData) {
    data.name != "" && data.mobile != "" && data.email != ""
  }

  class LoginForm {
    var name: string
    var mobile: string
    var email: string

    /** The form opens empty. */
    constructor ()
      ensures name == "" && mobile == "" && email == ""
      ensures !CanLogin(LoginData(name, mobile, email))
    {
      name, mobile, email := "", "", "";
    }

    method SetName(value: string)
      modifies this
      ensures name == value && mobile == old(mobile) && email == old(email)
    {
      name := value;
    }

    method SetMobile(value: string)
      modifies this
      ensures mobile == value && name == old(name) && email == old(email)
    {
      mobile := value;
    }

    method SetEmail(value: string)
      modifies this
      ensures email == value && name == old(name) && mobile == old(mobile)
    {
      email := value;
    }

    /** `handleSubmit`: hands the form's exact contents to the login handler
        when every field is filled, and does nothing otherwise. */
    method Submit() returns (login: Option<LoginData>)
      ensures login.Some? <==> name != "" && mobile != "" && email != ""
      ensures login.Some? ==> login.value == LoginData(name, mobile, email)
    {
      var data := LoginData(name, mobile, email);
      if CanLogin(data) {
        login := Some(data);
      } else {
        login := None;
      }
    }
  }

  /** Submitting before typing logs nobody in; filling all three fields
      submits exactly what was typed. The fields are filled email first, but
      each setter keeps the other two fields, so no order loses a value. */
  method FillAndSubmit(n: string, m: string, e: string) returns (before: Option<LoginData>, after: Option<LoginData>)
    ensures before == None
    ensures after.Some? <==> n != "" && m != "" && e != ""
    ensures after.Some? ==> after.value == LoginData(n, m, e)
  {
    var form := new LoginForm();
    before := form.Submit();
    form.SetEmail(e);
    form.SetName(n);
    form.SetMobile(m);
    after := form.Submit();
  }
}
