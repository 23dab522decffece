/** The sign-in screen (screens/AuthScreen.js): logging in, registering, and
    entering the emailed verification code, each one decided by the
    backend's reply.

    The screen calls `setVendedor` on three paths but never declares it, so
    as written those calls throw and the handler falls into its generic
    error alert. `AuthOutcomeAsWritten` and `VerifyOutcomeAsWritten` model
    that; `AuthOutcome` and `VerifyOutcome` model the evident intent (the
    call stores the vendor and nothing else), and the screen uses them. */
module Auth {
  import opened Wrappers
  import opened JsText
  import opened Api

  const NoVerificada := "Tu cuenta no está verificada. Revisa tu correo y valida tu código."
  const CodigoValidado := "Código validado correctamente"
  const CamposObligatorios := "Todos los campos son obligatorios"
  const CodigoSeisDigitos := "El código debe tener 6 dígitos"
  const ProblemaGenerico := "Ocurrió un problema, inténtalo de nuevo."
  const VerificarCuenta := "Debes verificar tu cuenta. Ingresa el código enviado a tu correo."
  const RevisaCorreo := "Revisa tu correo electrónico para obtener el código de verificación."
  const SinVendedor := "No se pudo recuperar la información del vendedor."
  const CodigoIncorrecto := "Código incorrecto. Inténtalo de nuevo."

  /** How a press of a button on the screen ends. */
  datatype Outcome =
    | Alerted(alert: Alert)                // an alert, the screen unchanged
    | CodeRequested(alert: Alert)          // the screen switches to code entry
    | Navigated(vendedor: Response)        // `navigation.replace('Home', ...)`

  /** The first guard of `handleAuth`: e-mail and password, and the name
      when registering, must be non-empty. */
  predicate FormComplete(isLogin: bool, nombre: string, email: string, password: string) {
    email != "" && password != "" && (isLogin || nombre != "")
  }

  /** `handleAuth` once the request is sent, `setVendedor` taken to succeed:
      a login whose reply says the account is unverified, or a registration
      that returns a vendor id, moves to code entry; a login with a vendor
      id goes home with the reply; anything else shows the reply's
      message. */
  function AuthOutcome(isLogin: bool, reply: Response): (r: Outcome)
    ensures r.Navigated? <==>
      isLogin && reply.mensaje != Some(NoVerificada) && Truthy(reply.idVendedor)
    ensures r.CodeRequested? <==>
      (isLogin && reply.mensaje == Some(NoVerificada)) || (!isLogin && Truthy(reply.idVendedor))
    ensures r.Navigated? ==> r.vendedor == reply
    ensures r.Alerted? ==> r.alert == Alert("Error", reply.mensaje)
  {
    if isLogin && reply.mensaje == Some(NoVerificada) then
      CodeRequested(Alert("Verificación", Some(VerificarCuenta)))
    else if !isLogin && Truthy(reply.idVendedor) then
      CodeRequested(Alert("Verificación", Some(RevisaCorreo)))
    else if Truthy(reply.idVendedor) then
      Navigated(reply)
    else
      Alerted(Alert("Error", reply.mensaje))
  }

  /** `handleAuth` as written: the undeclared `setVendedor` throws where the
      screen should move to code entry, and the catch shows the generic
      alert instead. Every other path is as intended. */
  function AuthOutcomeAsWritten(isLogin: bool, reply: Response): (r: Outcome)
    ensures !r.CodeRequested?
    ensures AuthOutcome(isLogin, reply).CodeRequested? ==> r == Alerted(Alert("Error", Some(ProblemaGenerico)))
    ensures !AuthOutcome(isLogin, reply).CodeRequested? ==> r == AuthOutcome(isLogin, reply)
  {
    if isLogin && reply.mensaje == Some(NoVerificada) then
      Alerted(Alert("Error", Some(ProblemaGenerico)))
    else if !isLogin && Truthy(reply.idVendedor) then
      Alerted(Alert("Error", Some(ProblemaGenerico)))
    else if Truthy(reply.idVendedor) then
      Navigated(reply)
    else
      Alerted(Alert("Error", reply.mensaje))
  }

  /** A successful registration is the input that shows the difference: as
      written it reports a problem, and no account can ever be verified. */
  lemma RegistrationFailsAsWritten()
    ensures AuthOutcomeAsWritten(false, Response(None, Some(7), None)) == Alerted(Alert("Error", Some(ProblemaGenerico)))
    ensures AuthOutcome(false, Response(None, Some(7), None)).CodeRequested?
  {
  }

  /** Registering never goes straight to the home screen. */
  lemma RegistrationNeverNavigates(reply: Response)
    ensures !AuthOutcome(false, reply).Navigated?
  {
  }

  /** The reply substituted for a failed request shows its own message. */
  lemma FailureReplyIsShown(isLogin: bool, req: Request)
    ensures AuthOutcome(isLogin, FailureReply(req)) == Alerted(Alert("Error", FailureReply(req).mensaje))
  {
    var prefijo := "Error al procesar la solicitud de ";
    assert FailureReply(req).mensaje.value == prefijo + Accion(req);
    assert |FailureReply(req).mensaje.value| < 60;
    assert |NoVerificada| > 60;
  }

  /** `handleVerifyCode` once the six-character code is sent, `setVendedor`
      taken to succeed: only the exact validation sentence leads to a fresh
      login, which goes home when it returns a vendor id. */
  function VerifyOutcome(validacion: Response, autenticacion: Response): (r: Outcome)
    ensures !r.CodeRequested?
    ensures r.Navigated? <==> validacion.mensaje == Some(CodigoValidado) && Truthy(autenticacion.idVendedor)
    ensures r.Navigated? ==> r.vendedor == autenticacion
    ensures validacion.mensaje != Some(CodigoValidado) ==> r == Alerted(Alert("Error", Some(CodigoIncorrecto)))
  {
    if validacion.mensaje == Some(CodigoValidado) then
      if Truthy(autenticacion.idVendedor) then Navigated(autenticacion)
      else Alerted(Alert("Error", Some(SinVendedor)))
    else
      Alerted(Alert("Error", Some(CodigoIncorrecto)))
  }

  /** `handleVerifyCode` as written: the undeclared `setVendedor` throws
      just before navigating, so the home screen is never reached. */
  function VerifyOutcomeAsWritten(validacion: Response, autenticacion: Response): (r: Outcome)
    ensures r.Alerted?
    ensures VerifyOutcome(validacion, autenticacion).Navigated? ==> r == Alerted(Alert("Error", Some(ProblemaGenerico)))
    ensures !VerifyOutcome(validacion, autenticacion).Navigated? ==> r == VerifyOutcome(validacion, autenticacion)
  {
    if validacion.mensaje == Some(CodigoValidado) then
      if Truthy(autenticacion.idVendedor) then Alerted(Alert("Error", Some(ProblemaGenerico)))
      else Alerted(Alert("Error", Some(SinVendedor)))
    else
      Alerted(Alert("Error", Some(CodigoIncorrecto)))
  }

  /** A valid code for an account that then logs in: as written it
      reports a problem instead of opening the home screen. */
  lemma VerifiedLoginFailsAsWritten()
    ensures VerifyOutcomeAsWritten(Response(Some(CodigoValidado), None, None), Response(None, Some(7), None))
      == Alerted(Alert("Error", Some(ProblemaGenerico)))
    ensures VerifyOutcome(Response(Some(CodigoValidado), None, None), Response(None, Some(7), None)).Navigated?
  {
  }

  class AuthScreen {
    var nombre: string
    var email: string
    var password: string
    var codigo: string
    var isLogin: bool
    var isCodeVerification: bool
    var loading: bool

    constructor ()
      ensures nombre == "" && email == "" && password == "" && codigo == ""
      ensures isLogin && !isCodeVerification && !loading
    {
      nombre, email, password, codigo := "", "", "", "";
      isLogin, isCodeVerification, loading := true, false, false;
    }

    /** The link under the form switches between login and registration. */
    method ToggleMode()
      modifies this
      ensures isLogin == !old(isLogin)
      ensures nombre == old(nombre) && email == old(email) && password == old(password) && codigo == old(codigo)
      ensures isCodeVerification == old(isCodeVerification) && loading == old(loading)
    {
      isLogin := !isLogin;
    }

    /** `handleAuth` with the backend's reply: an incomplete form is refused
        before any request; otherwise the login or registration is sent, the
        outcome is `AuthOutcome`, code entry is switched on exactly when
        that outcome asks for a code, and loading ends false. */
    method HandleAuth(reply: Response) returns (request: Option<Request>, outcome: Outcome)
      modifies this
      ensures !FormComplete(old(isLogin), old(nombre), old(email), old(password)) ==>
        && request == None
        && outcome == Alerted(Alert("Error", Some(CamposObligatorios)))
        && isCodeVerification == old(isCodeVerification) && loading == old(loading)
      ensures FormComplete(old(isLogin), old(nombre), old(email), old(password)) ==>
        && request == Some(if isLogin then AutenticarVendedor(email, password)
                           else CrearVendedor(nombre, email, password))
        && outcome == AuthOutcome(isLogin, reply)
        && isCodeVerification == (old(isCodeVerification) || outcome.CodeRequested?)
        && !loading
      ensures nombre == old(nombre) && email == old(email) && password == old(password)
      ensures codigo == old(codigo) && isLogin == old(isLogin)
    {
      if !FormComplete(isLogin, nombre, email, password) {
        request := None;
        outcome := Alerted(Alert("Error", Some(CamposObligatorios)));
        return;
      }
      loading := true;
      if isLogin {
        request := Some(AutenticarVendedor(email, password));
      } else {
        request := Some(CrearVendedor(nombre, email, password));
      }
      outcome := AuthOutcome(isLogin, reply);
      if outcome.CodeRequested? {
        isCodeVerification := true;
      }
      loading := false;
    }

    /** `handleVerifyCode` with the replies to the validation and to the
        login that follows it: a code that is not six UTF-16 units long is
        refused before any request; otherwise the code is sent, the login
        is repeated only after the exact validation sentence, and loading
        ends false. */
    method HandleVerifyCode(validacion: Response, autenticacion: Response)
      returns (requests: seq<Request>, outcome: Outcome)
      modifies this
      ensures JsLength(old(codigo)) != 6 ==>
        && requests == []
        && outcome == Alerted(Alert("Error", Some(CodigoSeisDigitos)))
        && loading == old(loading)
      ensures JsLength(old(codigo)) == 6 ==>
        && requests == [ValidarCodigo(email, codigo)] +
             (if validacion.mensaje == Some(CodigoValidado) then [AutenticarVendedor(email, password)] else [])
        && outcome == VerifyOutcome(validacion, autenticacion)
        && !loading
      ensures nombre == old(nombre) && email == old(email) && password == old(password)
      ensures codigo == old(codigo) && isLogin == old(isLogin) && isCodeVerification == old(isCodeVerification)
    {
      if JsLength(codigo) != 6 {
        requests := [];
        outcome := Alerted(Alert("Error", Some(CodigoSeisDigitos)));
        return;
      }
      loading := true;
      requests := [ValidarCodigo(email, codigo)];
      if validacion.mensaje == Some(CodigoValidado) {
        requests := requests + [AutenticarVendedor(email, password)];
        if Truthy(autenticacion.idVendedor) {
          outcome := Navigated(autenticacion);
        } else {
          outcome := Alerted(Alert("Error", Some(SinVendedor)));
        }
      } else {
        outcome := Alerted(Alert("Error", Some(CodigoIncorrecto)));
      }
      loading := false;
    }
  }
}
