/** The sign-in screen (components/Auth.tsx): the password strength meter,
    the friendly error messages and the submission of the three forms. */
module Auth {
  import opened Js

  // ---------------------------------------------------------------------
  // Password strength

  /** `/[A-Z]/.test(pw)`. */
  predicate HasUpper(pw: string)
  {
    exists i | 0 <= i < |pw| :: 'A' <= pw[i] <= 'Z'
  }

  predicate IsDigitOrSymbol(c: char)
  {
    ('0' <= c <= '9') || c in "!@#$%^&*"
  }

  /** `/[0-9!@#$%^&*]/.test(pw)`. */
  predicate HasDigitOrSymbol(pw: string)
  {
    exists i | 0 <= i < |pw| :: IsDigitOrSymbol(pw[i])
  }

  function Points(b: bool): nat { if b then 25 else 0 }

  /** The strength: nothing for an empty password, otherwise 25 points for
      each criterion met. */
  function Strength(pw: string): nat
  {
    if pw == [] then 0
    else Points(Utf16Length(pw) > 5) + Points(Utf16Length(pw) > 8) + Points(HasUpper(pw)) + Points(HasDigitOrSymbol(pw))
  }

  /** `passwordStrength`: the four tests, one after the other. */
  method PasswordStrength(pw: string) returns (strength: nat)
    ensures strength == Strength(pw)
    ensures strength % 25 == 0 && strength <= 100
  {
    if pw == [] {
      return 0;
    }
    strength := 0;
    var length := Utf16Length(pw);
    if length > 5 {
      strength := strength + 25;
    }
    if length > 8 {
      strength := strength + 25;
    }
    if HasUpper(pw) {
      strength := strength + 25;
    }
    if HasDigitOrSymbol(pw) {
      strength := strength + 25;
    }
  }

  /** Full strength exactly when the password is longer than eight code units
      and holds an upper-case letter and a digit or symbol. */
  lemma FullStrength(pw: string)
    ensures Strength(pw) == 100 <==> Utf16Length(pw) > 8 && HasUpper(pw) && HasDigitOrSymbol(pw)
  {
    if pw == [] {
      assert !HasUpper(pw);
    }
  }

  /** A password of nine characters or more is at least "medium". */
  lemma LongIsAtLeastHalf(pw: string)
    requires |pw| > 8
    ensures Strength(pw) >= 50
  {
  }

  lemma {:induction false} Utf16LengthAppend(a: string, b: string)
    ensures Utf16Length(a + b) == Utf16Length(a) + Utf16Length(b)
    decreases |a|
  {
    if a != [] {
      assert (a + b)[0] == a[0] && (a + b)[1..] == a[1..] + b;
      Utf16LengthAppend(a[1..], b);
    } else {
      assert a + b == b;
    }
  }

  /** Typing more characters never lowers the strength. */
  lemma LongerIsNoWeaker(pw: string, more: string)
    requires pw != []
    ensures Strength(pw) <= Strength(pw + more)
  {
    Utf16LengthAppend(pw, more);
    if HasUpper(pw) {
      var i :| 0 <= i < |pw| && 'A' <= pw[i] <= 'Z';
      assert (pw + more)[i] == pw[i];
    }
    if HasDigitOrSymbol(pw) {
      var i :| 0 <= i < |pw| && IsDigitOrSymbol(pw[i]);
      assert (pw + more)[i] == pw[i];
    }
  }

  /** `strengthColor`. */
  function StrengthColor(s: nat): (color: string)
    ensures color in {"bg-rose-600", "bg-amber-600", "bg-blue-600", "bg-emerald-600"}
    ensures color == "bg-emerald-600" <==> s > 75
    ensures color == "bg-rose-600" <==> s <= 25
  {
    if s <= 25 then "bg-rose-600"
    else if s <= 50 then "bg-amber-600"
    else if s <= 75 then "bg-blue-600"
    else "bg-emerald-600"
  }

  /** The label under the meter. */
  function StrengthLabel(s: nat): (text: string)
    ensures text == "Fraca" <==> s <= 50
    ensures text == "Fraca" || text == "Segura"
  {
    if s <= 50 then "Fraca" else "Segura"
  }

  /** The label says "Segura" exactly when the bar is blue or green. */
  lemma LabelMatchesColor(s: nat)
    ensures StrengthLabel(s) == "Segura" <==> StrengthColor(s) in {"bg-blue-600", "bg-emerald-600"}
  {
  }

  // ---------------------------------------------------------------------
  // Friendly error messages

  /** The server phrases recognised, with their translation, in the order
      they are tried. */
  const KnownErrors: seq<(string, string)> := [
    ("User already registered", "Este e-mail já possui uma conta."),
    ("Invalid login credentials", "E-mail ou senha incorretos."),
    ("Email not confirmed", "E-mail ainda não confirmado."),
    ("Password should be at least", "A senha deve ter 6+ caracteres.")]

  const UnexpectedError := "Ocorreu um erro inesperado."

  /** `getFriendlyErrorMessage`. */
  function FriendlyMessage(msg: string): (r: string)
    ensures r != ""
    ensures (forall k | 0 <= k < |KnownErrors| :: !Includes(msg, KnownErrors[k].0)) ==>
      r == if msg == "" then UnexpectedError else msg
  {
    assert KnownErrors[0].0 == "User already registered" && KnownErrors[1].0 == "Invalid login credentials";
    assert KnownErrors[2].0 == "Email not confirmed" && KnownErrors[3].0 == "Password should be at least";
    if Includes(msg, "User already registered") then "Este e-mail já possui uma conta."
    else if Includes(msg, "Invalid login credentials") then "E-mail ou senha incorretos."
    else if Includes(msg, "Email not confirmed") then "E-mail ainda não confirmado."
    else if Includes(msg, "Password should be at least") then "A senha deve ter 6+ caracteres."
    else if msg == "" then UnexpectedError
    else msg
  }

  /** The first entry of the table whose phrase the message contains. */
  function FirstKnown(msg: string, table: seq<(string, string)>): (r: Option<string>)
    ensures r.None? <==> forall k | 0 <= k < |table| :: !Includes(msg, table[k].0)
  {
    if table == [] then None
    else if Includes(msg, table[0].0) then Some(table[0].1)
    else FirstKnown(msg, table[1..])
  }

  /** The message chain reads the table: the first phrase found decides, and
      an unknown message is shown as it is. */
  lemma FriendlyMessageFollowsTable(msg: string)
    ensures FriendlyMessage(msg)
         == match FirstKnown(msg, KnownErrors)
            case Some(t) => t
            case None => if msg == "" then UnexpectedError else msg
  {
    var t := KnownErrors;
    assert FirstKnown(msg, t) == if Includes(msg, t[0].0) then Some(t[0].1) else FirstKnown(msg, t[1..]);
    assert FirstKnown(msg, t[1..]) == if Includes(msg, t[1].0) then Some(t[1].1) else FirstKnown(msg, t[2..]);
    assert FirstKnown(msg, t[2..]) == if Includes(msg, t[2].0) then Some(t[2].1) else FirstKnown(msg, t[3..]);
    assert FirstKnown(msg, t[3..]) == if Includes(msg, t[3].0) then Some(t[3].1) else FirstKnown(msg, t[4..]);
    assert t[4..] == [];
  }

  lemma IncludesItself(s: string)
    ensures Includes(s, s)
  {
    assert s <= s[0..];
  }

  lemma NotIncluded(s: string, t: string)
    requires t != []
    requires forall i | 0 <= i <= |s| - |t| :: s[i] != t[0]
    ensures !Includes(s, t)
  {
    forall i | 0 <= i <= |s| - |t|
      ensures !(t <= s[i..])
    {
      assert s[i..][0] == s[i];
    }
  }

  /** No recognised phrase is shadowed by an earlier one: the exact server
      phrase gets its own translation. */
  lemma KnownPhrasesTranslate(k: nat)
    requires k < |KnownErrors|
    ensures FriendlyMessage(KnownErrors[k].0) == KnownErrors[k].1
  {
    var p := KnownErrors[k].0;
    IncludesItself(p);
    if k >= 1 {
      NotIncluded(p, "User already registered");
    }
    if k == 3 {
      NotIncluded(p, "Invalid login credentials");
      NotIncluded(p, "Email not confirmed");
    }
  }

  // ---------------------------------------------------------------------
  // The submission

  datatype Mode = Login | Signup | Forgot

  datatype ToastKind = Success | Failure | Info

  datatype Toast = Toast(message: string, kind: ToastKind)

  /** The calls made to the authentication service. */
  datatype Request =
    | SignIn(email: string, password: string)
    | SignUp(email: string, password: string, fullName: string)
    | ResetPassword(email: string)

  /** What the service answered: an error message, or success with the user
      (if any) and whether a session was opened. */
  datatype Reply = Rejected(message: string) | Accepted(userId: Option<string>, hasSession: bool)

  /** The guard of `handleSubmit`: an e-mail, and a password outside the
      recovery form. */
  predicate MissingFields(mode: Mode, email: string, password: string)
  {
    email == "" || (mode != Forgot && password == "")
  }

  /** The request the form sends. */
  function RequestFor(mode: Mode, email: string, password: string, fullName: string): (r: Request)
    ensures r.email == Trim(email)
    ensures mode == Forgot <==> r.ResetPassword?
  {
    match mode
    case Login => SignIn(Trim(email), password)
    case Signup => SignUp(Trim(email), password, fullName)
    case Forgot => ResetPassword(Trim(email))
  }

  /** The toasts the screen shows, one per outcome of a submission. */
  const MissingFieldsToast := "Preencha os campos obrigatórios."
  const SignedInToast := "Acesso autorizado."
  const AccountCreatedToast := "Conta criada!"
  const CheckEmailToast := "Verifique seu e-mail."
  const ResetLinkToast := "Link de recuperação enviado!"

  /** The form's state, the remembered e-mail (local storage), the user
      handed to `onSuccess`, and the requests and toasts issued. */
  class AuthScreen {
    var mode: Mode
    var email: string
    var password: string
    var fullName: string
    var rememberMe: bool
    var savedEmail: Option<string>
    var signedIn: Option<string>
    var requests: seq<Request>
    var toasts: seq<Toast>

    /** The form opens on the login mode, filled with the remembered e-mail. */
    constructor (savedEmail: Option<string>)
      ensures mode == Login && password == "" && fullName == ""
      ensures savedEmail.Some? && savedEmail.value != "" ==> email == savedEmail.value && rememberMe
      ensures !(savedEmail.Some? && savedEmail.value != "") ==> email == "" && !rememberMe
      ensures this.savedEmail == savedEmail && signedIn.None? && requests == [] && toasts == []
    {
      mode := Login;
      password := "";
      fullName := "";
      this.savedEmail := savedEmail;
      signedIn := None;
      requests := [];
      toasts := [];
      if savedEmail.Some? && savedEmail.value != "" {
        email := savedEmail.value;
        rememberMe := true;
      } else {
        email := "";
        rememberMe := false;
      }
    }

    /** `handleSubmit`, with the service's answer given as `reply`. */
    method Submit(reply: Reply)
      modifies this
      ensures email == old(email) && password == old(password) && fullName == old(fullName)
      ensures rememberMe == old(rememberMe)
      ensures MissingFields(old(mode), email, password) ==>
        toasts == old(toasts) + [Toast(MissingFieldsToast, Failure)]
        && requests == old(requests) && mode == old(mode)
        && signedIn == old(signedIn) && savedEmail == old(savedEmail)
      ensures !MissingFields(old(mode), email, password) ==>
        requests == old(requests) + [RequestFor(old(mode), email, password, fullName)]
      ensures !MissingFields(old(mode), email, password) && reply.Rejected? ==>
        toasts == old(toasts) + [Toast(FriendlyMessage(reply.message), Failure)]
        && mode == old(mode) && signedIn == old(signedIn) && savedEmail == old(savedEmail)
      ensures !MissingFields(old(mode), email, password) && reply.Accepted? ==>
        match old(mode)
        case Login =>
          mode == Login
          && (reply.userId.Some? ==>
                signedIn == reply.userId && toasts == old(toasts) + [Toast(SignedInToast, Success)]
                && savedEmail == (if rememberMe then Some(Trim(email)) else None))
          && (reply.userId.None? ==> signedIn == old(signedIn) && toasts == old(toasts) && savedEmail == old(savedEmail))
        case Signup =>
          savedEmail == old(savedEmail)
          && (reply.userId.Some? && reply.hasSession ==>
                signedIn == reply.userId && mode == Signup && toasts == old(toasts) + [Toast(AccountCreatedToast, Success)])
          && (reply.userId.Some? && !reply.hasSession ==>
                signedIn == old(signedIn) && mode == Login && toasts == old(toasts) + [Toast(CheckEmailToast, Info)])
          && (reply.userId.None? ==> signedIn == old(signedIn) && mode == Signup && toasts == old(toasts))
        case Forgot =>
          mode == Login && signedIn == old(signedIn) && savedEmail == old(savedEmail)
          && toasts == old(toasts) + [Toast(ResetLinkToast, Success)]
    {
      if MissingFields(mode, email, password) {
        toasts := toasts + [Toast(MissingFieldsToast, Failure)];
        return;
      }
      requests := requests + [RequestFor(mode, email, password, fullName)];
      if reply.Rejected? {
        toasts := toasts + [Toast(FriendlyMessage(reply.message), Failure)];
        return;
      }
      match mode {
        case Login => AcceptLogin(reply);
        case Signup => AcceptSignup(reply);
        case Forgot => AcceptForgot();
      }
    }

    /** A login the service accepted: a returned user is signed in, and the
        e-mail is remembered or forgotten as the check box says. */
    method AcceptLogin(reply: Reply)
      requires reply.Accepted?
      modifies this
      ensures mode == old(mode) && email == old(email) && password == old(password) && fullName == old(fullName)
      ensures rememberMe == old(rememberMe) && requests == old(requests)
      ensures reply.userId.Some? ==>
        signedIn == reply.userId && toasts == old(toasts) + [Toast(SignedInToast, Success)]
        && savedEmail == (if rememberMe then Some(Trim(email)) else None)
      ensures reply.userId.None? ==> signedIn == old(signedIn) && toasts == old(toasts) && savedEmail == old(savedEmail)
    {
      if reply.userId.Some? {
        if rememberMe {
          savedEmail := Some(Trim(email));
        } else {
          savedEmail := None;
        }
        toasts := toasts + [Toast(SignedInToast, Success)];
        signedIn := reply.userId;
      }
    }

    /** A sign-up the service accepted: with a session the user is signed in,
        without one the form asks for the e-mail confirmation and returns to login. */
    method AcceptSignup(reply: Reply)
      requires reply.Accepted?
      modifies this
      ensures email == old(email) && password == old(password) && fullName == old(fullName)
      ensures rememberMe == old(rememberMe) && requests == old(requests) && savedEmail == old(savedEmail)
      ensures reply.userId.Some? && reply.hasSession ==>
        signedIn == reply.userId && mode == old(mode) && toasts == old(toasts) + [Toast(AccountCreatedToast, Success)]
      ensures reply.userId.Some? && !reply.hasSession ==>
        signedIn == old(signedIn) && mode == Login && toasts == old(toasts) + [Toast(CheckEmailToast, Info)]
      ensures reply.userId.None? ==> signedIn == old(signedIn) && mode == old(mode) && toasts == old(toasts)
    {
      if reply.userId.Some? {
        if reply.hasSession {
          toasts := toasts + [Toast(AccountCreatedToast, Success)];
          signedIn := reply.userId;
        } else {
          toasts := toasts + [Toast(CheckEmailToast, Info)];
          mode := Login;
        }
      }
    }

    /** A recovery request the service accepted: the link is announced and
        the form returns to login. */
    method AcceptForgot()
      modifies this
      ensures email == old(email) && password == old(password) && fullName == old(fullName)
      ensures rememberMe == old(rememberMe) && requests == old(requests) && savedEmail == old(savedEmail)
      ensures signedIn == old(signedIn) && mode == Login && toasts == old(toasts) + [Toast(ResetLinkToast, Success)]
    {
      toasts := toasts + [Toast(ResetLinkToast, Success)];
      mode := Login;
    }
  }

  /** The recovery form needs only the e-mail; the other two also a password. */
  lemma RecoveryNeedsOnlyEmail(email: string, password: string)
    ensures MissingFields(Forgot, email, password) <==> email == ""
    ensures MissingFields(Login, email, password) <==> email == "" || password == ""
  {
  }
}
