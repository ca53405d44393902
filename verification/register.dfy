/** The authentication form: one form that is, by three flags, a sign-up form,
    an OTP check, a password-reset request or a login form. */
module Register {
  import opened Outcomes
  import opened Navigation

  /** The four forms, in the precedence the three flags select them. */
  datatype FormMode = VerifyOtp | SignUp | ResetRequest | SignIn

  /** The submit handlers. */
  datatype Handler = HandleOtpVerification | HandleRegister | HandleForgotPassword | HandleLogin

  /** The toggle links under the form. */
  datatype Link = LogInFromOtp | LogInFromSignUp | BackToLogin | RegisterHere | ForgotPassword

  /** The body each handler posts, with the field values its closure
      captured when the form was submitted. */
  datatype Request =
    | RegisterBody(name: string, email: string, password: string)
    | OtpBody(email: string, otp: string)
    | ForgotBody(email: string)
    | LoginBody(email: string, password: string)

  /** The handler that posts a body. */
  function HandlerOf(r: Request): Handler
  {
    match r
    case RegisterBody(_, _, _) => HandleRegister
    case OtpBody(_, _) => HandleOtpVerification
    case ForgotBody(_) => HandleForgotPassword
    case LoginBody(_, _) => HandleLogin
  }

  /** The body a handler posts from the current field values. */
  function RequestFor(h: Handler, name: string, email: string, password: string, otp: string): (r: Request)
    ensures HandlerOf(r) == h
    ensures r.email == email
    ensures r.RegisterBody? ==> r.name == name && r.password == password
    ensures r.OtpBody? ==> r.otp == otp
    ensures r.LoginBody? ==> r.password == password
  {
    match h
    case HandleRegister => RegisterBody(name, email, password)
    case HandleOtpVerification => OtpBody(email, otp)
    case HandleForgotPassword => ForgotBody(email)
    case HandleLogin => LoginBody(email, password)
  }

  /** The body of the OTP verification reply. */
  datatype OtpReply = OtpReply(message: string, success: bool)

  /** Registering with OTP pending is the OTP check; registering otherwise is
      sign-up; not registering, the reset flag picks reset or login. */
  function ModeOf(isRegistering: bool, isOtpPhase: bool, isResettingPassword: bool): (m: FormMode)
    ensures m == VerifyOtp <==> isRegistering && isOtpPhase
    ensures m == SignUp <==> isRegistering && !isOtpPhase
    ensures m == ResetRequest <==> !isRegistering && isResettingPassword
    ensures m == SignIn <==> !isRegistering && !isResettingPassword
  {
    if isRegistering then (if isOtpPhase then VerifyOtp else SignUp)
    else if isResettingPassword then ResetRequest
    else SignIn
  }

  function ModeHeading(m: FormMode): string
  {
    match m
    case VerifyOtp => "Enter OTP"
    case SignUp => "Register"
    case ResetRequest => "Reset Password"
    case SignIn => "Login"
  }

  function ModeHandler(m: FormMode): Handler
  {
    match m
    case VerifyOtp => HandleOtpVerification
    case SignUp => HandleRegister
    case ResetRequest => HandleForgotPassword
    case SignIn => HandleLogin
  }

  function ModeLabel(m: FormMode): string
  {
    match m
    case VerifyOtp => "Verify OTP"
    case SignUp => "Register"
    case ResetRequest => "Send Reset Link"
    case SignIn => "Login"
  }

  /** The heading, written as its own nested conditional; it follows the mode. */
  function Heading(isRegistering: bool, isOtpPhase: bool, isResettingPassword: bool): (h: string)
    ensures h == ModeHeading(ModeOf(isRegistering, isOtpPhase, isResettingPassword))
  {
    if isRegistering then (if isOtpPhase then "Enter OTP" else "Register")
    else if isResettingPassword then "Reset Password"
    else "Login"
  }

  /** The form's submit handler, written as its own nested conditional; it
      follows the mode. */
  function SubmitHandler(isRegistering: bool, isOtpPhase: bool, isResettingPassword: bool): (h: Handler)
    ensures h == ModeHandler(ModeOf(isRegistering, isOtpPhase, isResettingPassword))
  {
    if isRegistering then (if isOtpPhase then HandleOtpVerification else HandleRegister)
    else if isResettingPassword then HandleForgotPassword
    else HandleLogin
  }

  /** The submit button's label: "Processing..." while a request is in flight,
      otherwise the mode's label. */
  function ButtonLabel(loading: bool, isRegistering: bool, isOtpPhase: bool, isResettingPassword: bool): (l: string)
    ensures loading ==> l == "Processing..."
    ensures !loading ==> l == ModeLabel(ModeOf(isRegistering, isOtpPhase, isResettingPassword))
  {
    if loading then "Processing..."
    else if isRegistering then (if isOtpPhase then "Verify OTP" else "Register")
    else if isResettingPassword then "Send Reset Link"
    else "Login"
  }

  /** The links shown under the form. */
  function LinksShown(isRegistering: bool, isOtpPhase: bool, isResettingPassword: bool): (s: set<Link>)
    ensures ModeOf(isRegistering, isOtpPhase, isResettingPassword) == VerifyOtp ==> s == {LogInFromOtp}
    ensures ModeOf(isRegistering, isOtpPhase, isResettingPassword) == SignUp ==> s == {LogInFromSignUp}
    ensures ModeOf(isRegistering, isOtpPhase, isResettingPassword) == ResetRequest ==> s == {BackToLogin}
    ensures ModeOf(isRegistering, isOtpPhase, isResettingPassword) == SignIn ==> s == {RegisterHere, ForgotPassword}
  {
    if isRegistering then (if isOtpPhase then {LogInFromOtp} else {LogInFromSignUp})
    else if isResettingPassword then {BackToLogin}
    else {RegisterHere, ForgotPassword}
  }

  class AuthForm {
    var isRegistering: bool
    var isResettingPassword: bool
    var isOtpPhase: bool
    var name: string
    var email: string
    var password: string
    var otp: string
    var message: string
    var loading: bool
    /** The request in flight, if any, as its handler captured the fields. */
    var inFlight: Option<Request>

    /** At most one request is in flight, exactly while `loading`; the form is
        never both registering and resetting. */
    ghost predicate Valid()
      reads this
    {
      && (inFlight != None <==> loading)
      && !(isRegistering && isResettingPassword)
    }

    function Mode(): FormMode
      reads this
    {
      ModeOf(isRegistering, isOtpPhase, isResettingPassword)
    }

    constructor ()
      ensures Valid() && Mode() == SignUp
      ensures isRegistering && !isResettingPassword && !isOtpPhase && !loading
      ensures name == "" && email == "" && password == "" && otp == "" && message == ""
    {
      isRegistering, isResettingPassword, isOtpPhase := true, false, false;
      name, email, password, otp, message := "", "", "", "", "";
      loading := false;
      inFlight := None;
    }

    method EditName(text: string)
      modifies this`name
      ensures name == text
    {
      name := text;
    }

    method EditEmail(text: string)
      modifies this`email
      ensures email == text
    {
      email := text;
    }

    method EditPassword(text: string)
      modifies this`password
      ensures password == text
    {
      password := text;
    }

    method EditOtp(text: string)
      modifies this`otp
      ensures otp == text
    {
      otp := text;
    }

    /** Submitting the form. While a request is in flight the button is
        disabled and nothing happens; otherwise `loading` is set and the
        mode's handler posts its body built from the current fields. */
    method Submit() returns (request: Option<Request>)
      requires Valid()
      modifies this`loading, this`inFlight
      ensures Valid()
      ensures old(loading) ==> request == None && loading && inFlight == old(inFlight)
      ensures !old(loading) ==>
        request == Some(RequestFor(ModeHandler(Mode()), name, email, password, otp))
        && loading && inFlight == request
    {
      if loading {
        return None;
      }
      var h := SubmitHandler(isRegistering, isOtpPhase, isResettingPassword);
      request := Some(RequestFor(h, name, email, password, otp));
      loading := true;
      inFlight := request;
    }

    /** The registration reply: success enters the OTP phase, clears name,
        password and OTP, and sets the email back to the one that was posted;
        failure only sets the message. */
    method FinishRegister(reply: Reply<string, ()>)
      requires Valid() && inFlight != None && inFlight.value.RegisterBody?
      modifies this`message, this`isOtpPhase, this`name, this`email, this`password, this`otp,
        this`loading, this`inFlight
      ensures Valid() && !loading
      ensures reply.Ok? ==>
        message == reply.payload && isOtpPhase && name == "" && password == "" && otp == ""
        && email == old(inFlight).value.email
      ensures !reply.Ok? ==>
        message == "Registration failed. Please try again." && isOtpPhase == old(isOtpPhase)
        && name == old(name) && email == old(email) && password == old(password) && otp == old(otp)
    {
      if reply.Ok? {
        message := reply.payload;
        isOtpPhase := true;
        name, email, password, otp := "", inFlight.value.email, "", "";
      } else {
        message := "Registration failed. Please try again.";
      }
      loading := false;
      inFlight := None;
    }

    /** The OTP reply: only `success` leaves the OTP check for the login form
        and clears the fields. */
    method FinishOtpVerification(reply: Reply<OtpReply, ()>)
      requires Valid() && inFlight != None && inFlight.value.OtpBody?
      modifies this`message, this`isOtpPhase, this`isRegistering, this`name, this`email, this`password, this`otp,
        this`loading, this`inFlight
      ensures Valid() && !loading
      ensures reply.Ok? ==> message == reply.payload.message
      ensures !reply.Ok? ==> message == "OTP verification failed. Please try again."
      ensures reply.Ok? && reply.payload.success ==>
        !isOtpPhase && !isRegistering && name == "" && email == "" && password == "" && otp == ""
      ensures !(reply.Ok? && reply.payload.success) ==>
        isOtpPhase == old(isOtpPhase) && isRegistering == old(isRegistering)
        && name == old(name) && email == old(email) && password == old(password) && otp == old(otp)
    {
      if reply.Ok? {
        message := reply.payload.message;
        if reply.payload.success {
          isOtpPhase, isRegistering := false, false;
          name, email, password, otp := "", "", "", "";
        }
      } else {
        message := "OTP verification failed. Please try again.";
      }
      loading := false;
      inFlight := None;
    }

    /** The login reply: success clears the fields and goes to the upload view. */
    method FinishLogin(reply: Reply<string, ()>) returns (nav: Option<Nav>)
      requires Valid() && inFlight != None && inFlight.value.LoginBody?
      modifies this`message, this`name, this`email, this`password, this`otp, this`loading, this`inFlight
      ensures Valid() && !loading
      ensures reply.Ok? ==>
        message == reply.payload && name == "" && email == "" && password == "" && otp == ""
        && nav == Some(Navigate(HomeRoute, NoState))
      ensures !reply.Ok? ==>
        message == "Login failed. Please try again." && nav == None
        && name == old(name) && email == old(email) && password == old(password) && otp == old(otp)
    {
      if reply.Ok? {
        message := reply.payload;
        name, email, password, otp := "", "", "", "";
        nav := Some(Navigate(HomeRoute, NoState));
      } else {
        message := "Login failed. Please try again.";
        nav := None;
      }
      loading := false;
      inFlight := None;
    }

    /** The password-reset request reply: success clears the fields. */
    method FinishForgotPassword(reply: Reply<string, ()>)
      requires Valid() && inFlight != None && inFlight.value.ForgotBody?
      modifies this`message, this`name, this`email, this`password, this`otp, this`loading, this`inFlight
      ensures Valid() && !loading
      ensures reply.Ok? ==>
        message == reply.payload && name == "" && email == "" && password == "" && otp == ""
      ensures !reply.Ok? ==>
        message == "Failed to send password reset email. Please try again."
        && name == old(name) && email == old(email) && password == old(password) && otp == old(otp)
    {
      if reply.Ok? {
        message := reply.payload;
        name, email, password, otp := "", "", "", "";
      } else {
        message := "Failed to send password reset email. Please try again.";
      }
      loading := false;
      inFlight := None;
    }

    /** Following a link shown under the form. Every "log in" link ends on the
        login form; "Register here" and "Forgot Password?" leave it. */
    method Follow(link: Link)
      requires Valid() && link in LinksShown(isRegistering, isOtpPhase, isResettingPassword)
      modifies this`isRegistering, this`isOtpPhase, this`isResettingPassword
      ensures Valid()
      ensures link == LogInFromOtp ==> !isRegistering && !isOtpPhase && isResettingPassword == old(isResettingPassword)
      ensures link == LogInFromSignUp ==> !isRegistering && isOtpPhase == old(isOtpPhase) && isResettingPassword == old(isResettingPassword)
      ensures link == BackToLogin ==> !isResettingPassword && isRegistering == old(isRegistering) && isOtpPhase == old(isOtpPhase)
      ensures link == RegisterHere ==> isRegistering && isOtpPhase == old(isOtpPhase) && isResettingPassword == old(isResettingPassword)
      ensures link == ForgotPassword ==> isResettingPassword && isRegistering == old(isRegistering) && isOtpPhase == old(isOtpPhase)
      ensures link in {LogInFromOtp, LogInFromSignUp, BackToLogin} ==> Mode() == SignIn
      ensures link == ForgotPassword ==> Mode() == ResetRequest
    {
      match link
      case LogInFromOtp =>
        isRegistering, isOtpPhase := false, false;
      case LogInFromSignUp =>
        isRegistering := false;
      case BackToLogin =>
        isResettingPassword := false;
      case RegisterHere =>
        isRegistering := true;
      case ForgotPassword =>
        isResettingPassword := true;
    }
  }
}
