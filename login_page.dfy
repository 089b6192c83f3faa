/**
 * The login and registration page: the form state, the client-side
 * validation chain, the automatic `+51 ` prefix, and the payload handed to
 * the authentication context. The login and register calls themselves are
 * the `outcome` parameter of `Submit` (None when they succeed, else the
 * error message they throw).
 */
module LoginPage {
  import opened Common
  import AuthService
  import AuthController

  datatype LoginForm = LoginForm(email: string, password: string)
  datatype RegisterForm = RegisterForm(name: string, email: string, phone: string,
                                       password: string, confirmPassword: string)

  /** The input named by `e.target.name`. */
  datatype LoginField = LoginEmail | LoginPassword
  datatype RegisterField = Name | Email | Phone | Password | ConfirmPassword

  /** What the page hands to `login` or `register`. */
  datatype Request = LoginRequest(credentials: LoginForm) | RegisterRequest(form: RegisterForm)

  const IncompleteFields := "Por favor complete todos los campos"
  const PasswordsDiffer := "Las contraseñas no coinciden"
  const ShortPassword := "La contraseña debe tener al menos 6 caracteres"
  const BadPhone := "Por favor ingrese un número de teléfono móvil válido de Perú (9XX XXX XXX)"

  const EmptyLogin := LoginForm("", "")
  const EmptyRegister := RegisterForm("", "", "", "", "")

  /** The login tab's check: both fields are required. */
  function LoginError(f: LoginForm): (e: Option<string>)
    ensures e.None? <==> f.email != "" && f.password != ""
    ensures e.Some? ==> e.value == IncompleteFields
  {
    if f.email == "" || f.password == "" then Some(IncompleteFields) else None
  }

  predicate Complete(f: RegisterForm)
  {
    f.name != "" && f.email != "" && f.phone != "" && f.password != "" && f.confirmPassword != ""
  }

  /** The register tab's checks, the first failing one deciding the message. */
  function RegisterError(f: RegisterForm): (e: Option<string>)
    ensures e.None? <==>
      (Complete(f) && f.password == f.confirmPassword && |f.password| >= 6 && AuthService.FrontValidPhone(f.phone))
    ensures !Complete(f) ==> e == Some(IncompleteFields)
    ensures Complete(f) && f.password != f.confirmPassword ==> e == Some(PasswordsDiffer)
    ensures Complete(f) && f.password == f.confirmPassword && |f.password| < 6 ==> e == Some(ShortPassword)
    ensures (Complete(f) && f.password == f.confirmPassword && |f.password| >= 6
             && !AuthService.FrontValidPhone(f.phone)) ==> e == Some(BadPhone)
  {
    if !Complete(f) then Some(IncompleteFields)
    else if f.password != f.confirmPassword then Some(PasswordsDiffer)
    else if |f.password| < 6 then Some(ShortPassword)
    else if !AuthService.FrontValidPhone(f.phone) then Some(BadPhone)
    else None
  }

  /** `validateForm()`: tab 0 is the login form, any other tab the register form. */
  function FormError(tab: nat, login: LoginForm, register: RegisterForm): (e: Option<string>)
    ensures tab == 0 ==> e == LoginError(login)
    ensures tab != 0 ==> e == RegisterError(register)
  {
    if tab == 0 then LoginError(login) else RegisterError(register)
  }

  /** `handlePhoneChange`: a number typed from its leading `9` gets the country code in front. */
  function PrefixPhone(value: string): (r: string)
    ensures StartsWith(value, "9") && !StartsWith(value, "+51") ==> r == "+51 " + value
    ensures !(StartsWith(value, "9") && !StartsWith(value, "+51")) ==> r == value
  {
    if !StartsWith(value, "+51") && StartsWith(value, "9") then "+51 " + value else value
  }

  /** Prefixing twice is prefixing once. */
  lemma PrefixIdempotent(value: string)
    ensures PrefixPhone(PrefixPhone(value)) == PrefixPhone(value)
  {
    if StartsWith(value, "9") && !StartsWith(value, "+51") {
      assert ("+51 " + value)[..3] == "+51";
    }
  }

  /** The prefix never changes whether the phone passes the page's validation. */
  lemma PrefixKeepsValidity(value: string)
    ensures AuthService.FrontValidPhone(PrefixPhone(value)) <==> AuthService.FrontValidPhone(value)
  {
    if StartsWith(value, "9") && !StartsWith(value, "+51") {
      var s := StripSpaces(value);
      StripSpacesConcat("+51 ", value);
      assert StripSpaces("+51 ") == "+51" by {
        assert "+51 "[1..] == "51 ";
        assert "51 "[1..] == "1 ";
        assert "1 "[1..] == " ";
      }
      var t := StripSpaces("+51 " + value);
      assert t == "+51" + s;
      assert s == [value[0]] + StripSpaces(value[1..]) by { assert !IsSpace(value[0]); }
      assert s[0] == '9';
      AuthService.FrontValidMeaning(value);
      AuthService.FrontValidMeaning("+51 " + value);
      assert !AuthService.MobileDigits(t) by { assert t[0] == '+'; }
      assert t[..3] == "+51" && t[3..] == s;
      if AuthService.FrontValidPhone(value) {
        assert AuthService.MobileDigits(s) by { assert s[..3] != "+51"; }
      }
    }
  }

  /** The register payload: the form with only the phone replaced by its display form. */
  function RegisterPayload(f: RegisterForm): (p: RegisterForm)
    ensures p.name == f.name && p.email == f.email && p.password == f.password
    ensures p.confirmPassword == f.confirmPassword
    ensures p.phone == AuthService.FormatPeruvianPhone(f.phone)
  {
    f.(phone := AuthService.FormatPeruvianPhone(f.phone))
  }

  /** The body the backend's register handler reads from a payload. */
  function ServerBody(p: RegisterForm): (b: AuthController.RegisterBody)
    ensures b.name == Some(p.name) && b.email == Some(p.email)
    ensures b.password == Some(p.password) && b.phone == Some(p.phone)
  {
    AuthController.RegisterBody(Some(p.name), Some(p.email), Some(p.password), Some(p.phone))
  }

  /**
   * A registration the page lets through can only be refused by the server
   * for its email address: every other server-side guard is already met.
   */
  lemma AcceptedRegistrationMeetsServerGuards(f: RegisterForm)
    requires RegisterError(f).None?
    ensures var e := AuthController.RegisterRefusal(ServerBody(RegisterPayload(f)));
      e == None || e == Some(AuthController.BadEmail)
    ensures AuthController.ValidEmail(f.email) ==>
      AuthController.RegisterRefusal(ServerBody(RegisterPayload(f))) == None
  {
    AuthService.FormattedIsBackendValid(f.phone);
  }

  class Page {
    var tabValue: nat
    var loading: bool
    var error: string
    var loginData: LoginForm
    var registerData: RegisterForm
    /** The calls handed to the authentication context, oldest first. */
    var sent: seq<Request>

    constructor()
      ensures tabValue == 0 && !loading && error == ""
      ensures loginData == EmptyLogin && registerData == EmptyRegister && sent == []
    {
      tabValue := 0;
      loading := false;
      error := "";
      loginData := EmptyLogin;
      registerData := EmptyRegister;
      sent := [];
    }

    /** The current form's validation message, `None` when it may be sent. */
    function Validation(): (e: Option<string>)
      reads this
      ensures e == FormError(tabValue, loginData, registerData)
    {
      FormError(tabValue, loginData, registerData)
    }

    /** `handleTabChange`: switching tabs clears the error. */
    method HandleTabChange(newValue: nat)
      modifies this
      ensures tabValue == newValue && error == ""
      ensures loading == old(loading) && loginData == old(loginData)
      ensures registerData == old(registerData) && sent == old(sent)
    {
      tabValue := newValue;
      error := "";
    }

    /** `handleLoginChange`: one login field replaced, the rest kept. */
    method HandleLoginChange(field: LoginField, value: string)
      modifies this
      ensures field == LoginEmail ==> loginData == old(loginData).(email := value)
      ensures field == LoginPassword ==> loginData == old(loginData).(password := value)
      ensures tabValue == old(tabValue) && loading == old(loading) && error == old(error)
      ensures registerData == old(registerData) && sent == old(sent)
    {
      match field {
        case LoginEmail => loginData := loginData.(email := value);
        case LoginPassword => loginData := loginData.(password := value);
      }
    }

    /** `handleRegisterChange`: one register field replaced, the rest kept. */
    method HandleRegisterChange(field: RegisterField, value: string)
      modifies this
      ensures field == Name ==> registerData == old(registerData).(name := value)
      ensures field == Email ==> registerData == old(registerData).(email := value)
      ensures field == Phone ==> registerData == old(registerData).(phone := value)
      ensures field == Password ==> registerData == old(registerData).(password := value)
      ensures field == ConfirmPassword ==> registerData == old(registerData).(confirmPassword := value)
      ensures tabValue == old(tabValue) && loading == old(loading) && error == old(error)
      ensures loginData == old(loginData) && sent == old(sent)
    {
      match field {
        case Name => registerData := registerData.(name := value);
        case Email => registerData := registerData.(email := value);
        case Phone => registerData := registerData.(phone := value);
        case Password => registerData := registerData.(password := value);
        case ConfirmPassword => registerData := registerData.(confirmPassword := value);
      }
    }

    /** `handlePhoneChange`: the typed phone, prefixed with `+51 ` when it starts with `9`. */
    method HandlePhoneChange(value: string)
      modifies this
      ensures registerData == old(registerData).(phone := PrefixPhone(value))
      ensures tabValue == old(tabValue) && loading == old(loading) && error == old(error)
      ensures loginData == old(loginData) && sent == old(sent)
    {
      var v := value;
      if !StartsWith(v, "+51") && StartsWith(v, "9") {
        v := "+51 " + v;
      }
      registerData := registerData.(phone := v);
    }

    /** `validateForm()`: sets the first failing check's message and reports whether the form may be sent. */
    method ValidateForm() returns (ok: bool)
      modifies this
      ensures ok <==> old(Validation()).None?
      ensures !ok ==> error == old(Validation()).value
      ensures ok ==> error == old(error)
      ensures tabValue == old(tabValue) && loading == old(loading) && loginData == old(loginData)
      ensures registerData == old(registerData) && sent == old(sent)
    {
      var e := FormError(tabValue, loginData, registerData);
      if e.Some? {
        error := e.value;
        return false;
      }
      return true;
    }

    /**
     * `handleSubmit`: an invalid form only shows its message; a valid one is
     * sent (the register form with its phone formatted), and the error shown
     * afterwards is the call's failure message, if any.
     */
    method Submit(outcome: Option<string>)
      modifies this
      ensures old(Validation()).Some? ==> error == old(Validation()).value && sent == old(sent) && loading == old(loading)
      ensures old(Validation()).None? && old(tabValue) == 0 ==> sent == old(sent) + [LoginRequest(old(loginData))]
      ensures (old(Validation()).None? && old(tabValue) != 0 ==>
                 sent == old(sent) + [RegisterRequest(RegisterPayload(old(registerData)))])
      ensures old(Validation()).None? ==> !loading && error == (if outcome.Some? then outcome.value else "")
      ensures tabValue == old(tabValue) && loginData == old(loginData) && registerData == old(registerData)
    {
      error := "";
      var ok := ValidateForm();
      if !ok {
        return;
      }
      loading := true;
      if tabValue == 0 {
        sent := sent + [LoginRequest(loginData)];
      } else {
        var formatted := registerData.(phone := AuthService.FormatPeruvianPhone(registerData.phone));
        sent := sent + [RegisterRequest(formatted)];
      }
      if outcome.Some? {
        error := outcome.value;
      }
      loading := false;
    }
  }
}
