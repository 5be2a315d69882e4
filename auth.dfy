/** The sign-in screen: login and signup modes, the password check of the
    form, and the dispatch of the social buttons. Email and passwords are
    never sent anywhere; a submission that passes the check simply counts as
    a successful sign-in. */
module Auth {

  /** How a form submission ends: the mismatch toast, or the success toast
      followed by `onAuthSuccess`. */
  datatype SubmitOutcome = PasswordMismatch | Authenticated(message: string)

  const LoginMessage: string := "Login realizado com sucesso!"
  const SignupMessage: string := "Conta criada com sucesso!"

  /** `handleSubmit`. Only signup compares the two passwords. */
  function Submit(isLogin: bool, password: string, confirmPassword: string): (o: SubmitOutcome)
    ensures o == PasswordMismatch <==> !isLogin && password != confirmPassword
    ensures o.Authenticated? && isLogin ==> o.message == LoginMessage
    ensures o.Authenticated? && !isLogin ==> o.message == SignupMessage
  {
    if !isLogin && password != confirmPassword then PasswordMismatch
    else Authenticated(if isLogin then LoginMessage else SignupMessage)
  }

  /** In login mode the confirmation field plays no part: whatever it holds,
      the outcome is a successful login. */
  lemma LoginIgnoresConfirmation(password: string, c1: string, c2: string)
    ensures Submit(true, password, c1) == Submit(true, password, c2) == Authenticated(LoginMessage)
  {
  }

  /** The two success messages tell the modes apart. */
  lemma MessagesTellModesApart(p1: string, c1: string, p2: string, c2: string)
    requires Submit(true, p1, c1).Authenticated? && Submit(false, p2, c2).Authenticated?
    ensures Submit(true, p1, c1).message != Submit(false, p2, c2).message
  {
    assert LoginMessage[0] != SignupMessage[0];
  }

  /** What a social button does: start the Google sign-in, or show the
      'not implemented' toast naming the provider. */
  datatype SocialAction = GoogleSignIn | NotImplemented(message: string)

  const NotImplementedPrefix: string := "Login com "
  const NotImplementedSuffix: string := " ainda não implementado"

  /** `handleSocialLogin`. */
  function SocialLogin(provider: string): (a: SocialAction)
    ensures a == GoogleSignIn <==> provider == "Google"
    ensures a.NotImplemented? ==> a.message == NotImplementedPrefix + provider + NotImplementedSuffix
  {
    if provider == "Google" then GoogleSignIn
    else NotImplemented(NotImplementedPrefix + provider + NotImplementedSuffix)
  }

  /** The toast names the provider it was asked for: two providers never get
      the same message. */
  lemma NotImplementedNamesProvider(p1: string, p2: string)
    requires SocialLogin(p1).NotImplemented? && SocialLogin(p2).NotImplemented?
    requires SocialLogin(p1).message == SocialLogin(p2).message
    ensures p1 == p2
  {
    var m := SocialLogin(p1).message;
    assert m[|NotImplementedPrefix|..|m| - |NotImplementedSuffix|] == p1;
    assert m[|NotImplementedPrefix|..|m| - |NotImplementedSuffix|] == p2;
  }

  class AuthScreen {
    var isLogin: bool
    var email: string
    var password: string
    var confirmPassword: string
    var showPassword: bool
    var showConfirmPassword: bool

    constructor ()
      ensures isLogin && email == "" && password == "" && confirmPassword == ""
      ensures !showPassword && !showConfirmPassword
    {
      isLogin := true;
      email, password, confirmPassword := "", "", "";
      showPassword, showConfirmPassword := false, false;
    }

    /** The link under the form: flips the mode and keeps every field,
        including a confirmation typed before. */
    method ToggleMode()
      modifies this
      ensures isLogin == !old(isLogin)
      ensures email == old(email) && password == old(password) && confirmPassword == old(confirmPassword)
      ensures showPassword == old(showPassword) && showConfirmPassword == old(showConfirmPassword)
    {
      isLogin := !isLogin;
    }

    method SetEmail(value: string)
      modifies this
      ensures email == value && password == old(password) && confirmPassword == old(confirmPassword) && isLogin == old(isLogin)
      ensures showPassword == old(showPassword) && showConfirmPassword == old(showConfirmPassword)
    {
      email := value;
    }

    method SetPassword(value: string)
      modifies this
      ensures password == value && email == old(email) && confirmPassword == old(confirmPassword) && isLogin == old(isLogin)
      ensures showPassword == old(showPassword) && showConfirmPassword == old(showConfirmPassword)
    {
      password := value;
    }

    method SetConfirmPassword(value: string)
      modifies this
      ensures confirmPassword == value && email == old(email) && password == old(password) && isLogin == old(isLogin)
      ensures showPassword == old(showPassword) && showConfirmPassword == old(showConfirmPassword)
    {
      confirmPassword := value;
    }

    /** The eye buttons only change how a field is shown. */
    method ToggleShowPassword()
      modifies this
      ensures showPassword == !old(showPassword) && showConfirmPassword == old(showConfirmPassword)
      ensures isLogin == old(isLogin) && email == old(email) && password == old(password) && confirmPassword == old(confirmPassword)
    {
      showPassword := !showPassword;
    }

    method ToggleShowConfirmPassword()
      modifies this
      ensures showConfirmPassword == !old(showConfirmPassword) && showPassword == old(showPassword)
      ensures isLogin == old(isLogin) && email == old(email) && password == old(password) && confirmPassword == old(confirmPassword)
    {
      showConfirmPassword := !showConfirmPassword;
    }

    /** The submit button: `authenticated` is whether `onAuthSuccess` is
        called. The form keeps its fields either way. */
    method SubmitForm() returns (o: SubmitOutcome, authenticated: bool)
      ensures o == Submit(isLogin, password, confirmPassword)
      ensures authenticated <==> isLogin || password == confirmPassword
    {
      o := Submit(isLogin, password, confirmPassword);
      authenticated := o.Authenticated?;
    }
  }
}
