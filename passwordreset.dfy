/** The password reset screen (screens/PasswordReset.js): a code is
    requested for an e-mail address, and the code and a new password are
    then checked locally before the change is sent. Every reply's message
    is shown on the screen, success or not.

    The screen imports `reenviarCodigo` and `cambiarContrasena` from the
    client module, which exports neither. Both names are `undefined`, so
    each call throws a TypeError inside its `try` and the handler shows its
    catch message; no request is ever sent. `ResendEffectAsWritten` and
    `ChangeEffectAsWritten` model that. `ResendEffectOf` and
    `ChangeEffectOf` model the evident intent (both functions exist and
    post their action like the client's other calls), and the screen uses
    them. */
module PasswordReset {
  import opened Wrappers
  import opened JsText
  import opened Api

  const IngresaCorreo := "Por favor, ingresa tu correo electrónico."
  const CodigoReenviado := "Código reenviado correctamente"
  const CamposObligatorios := "Todos los campos son obligatorios."
  const CodigoSeisDigitos := "El código debe tener 6 dígitos."
  const PasswordCorta := "La contraseña debe tener al menos 6 caracteres."
  const PasswordActualizada := "Contraseña actualizada correctamente"
  const ErrorReenviar := "Error al reenviar el código. Inténtalo nuevamente."
  const ErrorCambiar := "Error al cambiar la contraseña. Inténtalo nuevamente."

  /** The local checks of `handleCambiarContrasena`, in the order the
      screen makes them: `None` when the change may be sent, otherwise
      the first message that applies. */
  function ChangeError(email: string, codigo: string, nuevaPassword: string): (r: Option<string>)
    ensures r.None? <==>
      email != "" && codigo != "" && nuevaPassword != "" && JsLength(codigo) == 6 && JsLength(nuevaPassword) >= 6
    ensures r == Some(CamposObligatorios) <==> email == "" || codigo == "" || nuevaPassword == ""
    ensures r == Some(CodigoSeisDigitos) ==> JsLength(codigo) != 6
    ensures r == Some(PasswordCorta) ==> JsLength(codigo) == 6 && JsLength(nuevaPassword) < 6
    ensures r.Some? ==> r.value in {CamposObligatorios, CodigoSeisDigitos, PasswordCorta}
  {
    if email == "" || codigo == "" || nuevaPassword == "" then Some(CamposObligatorios)
    else if JsLength(codigo) != 6 then Some(CodigoSeisDigitos)
    else if JsLength(nuevaPassword) < 6 then Some(PasswordCorta)
    else None
  }

  /** A six-unit code and a password of six units or more pass every check
      once the e-mail is filled in. */
  lemma {:induction false} WellFormedChangePasses(email: string, codigo: string, nuevaPassword: string)
    requires email != "" && JsLength(codigo) == 6 && JsLength(nuevaPassword) >= 6
    ensures ChangeError(email, codigo, nuevaPassword).None?
  {
    assert codigo != "" && nuevaPassword != "";
  }

  /** What a resend for a filled-in e-mail does: the request sent, the
      message shown and whether the code fields are shown. */
  datatype ResendEffect = ResendEffect(request: Option<Request>, mensaje: Option<string>, codigoEnviado: bool)

  /** The resend as intended: the code is requested for `email`, the
      reply's message is shown, and the code fields appear once the reply
      confirms the code was sent; once shown they stay. */
  function ResendEffectOf(email: string, codigoEnviado: bool, reply: Response): (e: ResendEffect)
    ensures e.request == Some(ReenviarCodigo(email))
    ensures e.mensaje == reply.mensaje
    ensures e.codigoEnviado <==> codigoEnviado || reply.mensaje == Some(CodigoReenviado)
  {
    ResendEffect(Some(ReenviarCodigo(email)), reply.mensaje, codigoEnviado || reply.mensaje == Some(CodigoReenviado))
  }

  /** The resend as written: the call of the missing `reenviarCodigo`
      throws before any request, and the catch shows its own message. */
  function ResendEffectAsWritten(email: string, codigoEnviado: bool, reply: Response): (e: ResendEffect)
    ensures e.request.None?
    ensures e.mensaje == Some(ErrorReenviar)
    ensures e.codigoEnviado == codigoEnviado
  {
    ResendEffect(None, Some(ErrorReenviar), codigoEnviado)
  }

  /** As written no resend reaches the backend, whatever it would reply,
      and the code fields never appear on a fresh screen; as intended, the
      confirming reply shows them. */
  lemma CodeFieldsNeverShownAsWritten(email: string, reply: Response)
    ensures ResendEffectAsWritten(email, false, reply) != ResendEffectOf(email, false, reply)
    ensures !ResendEffectAsWritten(email, false, reply).codigoEnviado
    ensures ResendEffectOf(email, false, Response(Some(CodigoReenviado), None, None)).codigoEnviado
  {
  }

  /** What a change that passed the local checks does: the request sent,
      the message shown and whether the screen goes back to sign-in. */
  datatype ChangeEffect = ChangeEffect(request: Option<Request>, mensaje: Option<string>, toAuth: bool)

  /** The change as intended: it is sent, the reply's message is shown, and
      the screen goes back to sign-in exactly on the confirming reply. */
  function ChangeEffectOf(email: string, codigo: string, nuevaPassword: string, reply: Response): (e: ChangeEffect)
    ensures e.request == Some(CambiarContrasena(email, codigo, nuevaPassword))
    ensures e.mensaje == reply.mensaje
    ensures e.toAuth <==> reply.mensaje == Some(PasswordActualizada)
  {
    ChangeEffect(Some(CambiarContrasena(email, codigo, nuevaPassword)), reply.mensaje,
                 reply.mensaje == Some(PasswordActualizada))
  }

  /** The change as written: the call of the missing `cambiarContrasena`
      throws before any request, and the catch shows its own message. */
  function ChangeEffectAsWritten(email: string, codigo: string, nuevaPassword: string, reply: Response): (e: ChangeEffect)
    ensures e.request.None? && !e.toAuth
    ensures e.mensaje == Some(ErrorCambiar)
  {
    ChangeEffect(None, Some(ErrorCambiar), false)
  }

  /** As written a password is never changed and the screen never returns
      to sign-in; as intended the confirming reply returns there. */
  lemma PasswordNeverChangedAsWritten(email: string, codigo: string, nuevaPassword: string, reply: Response)
    ensures ChangeEffectAsWritten(email, codigo, nuevaPassword, reply) != ChangeEffectOf(email, codigo, nuevaPassword, reply)
    ensures !ChangeEffectAsWritten(email, codigo, nuevaPassword, reply).toAuth
    ensures ChangeEffectOf(email, codigo, nuevaPassword, Response(Some(PasswordActualizada), None, None)).toAuth
  {
  }

  class PasswordResetScreen {
    var email: string
    var codigo: string
    var nuevaPassword: string
    var codigoEnviado: bool
    var mensaje: Option<string>
    var loading: bool

    constructor ()
      ensures email == "" && codigo == "" && nuevaPassword == ""
      ensures !codigoEnviado && mensaje == Some("") && !loading
    {
      email, codigo, nuevaPassword := "", "", "";
      codigoEnviado, mensaje, loading := false, Some(""), false;
    }

    /** The resend button is disabled while the e-mail is empty or a
        request is pending. */
    predicate ResendDisabled()
      reads this
    {
      email == "" || loading
    }

    /** The change button is disabled while the code or the new password
        is empty or a request is pending; it does not look at the e-mail. */
    predicate ChangeDisabled()
      reads this
    {
      codigo == "" || nuevaPassword == "" || loading
    }

    /** `handleReenviarCodigo` with the backend's reply, as intended: an
        empty e-mail is refused before any request; otherwise the resend
        has the effect `ResendEffectOf` states and loading ends false. */
    method HandleReenviarCodigo(reply: Response) returns (request: Option<Request>)
      modifies this
      ensures old(email) == "" ==>
        request == None && mensaje == Some(IngresaCorreo) &&
        codigoEnviado == old(codigoEnviado) && loading == old(loading)
      ensures old(email) != "" ==>
        && ResendEffect(request, mensaje, codigoEnviado) == ResendEffectOf(email, old(codigoEnviado), reply)
        && !loading
      ensures email == old(email) && codigo == old(codigo) && nuevaPassword == old(nuevaPassword)
    {
      if email == "" {
        mensaje := Some(IngresaCorreo);
        return None;
      }
      loading := true;
      request := Some(ReenviarCodigo(email));
      mensaje := reply.mensaje;
      if reply.mensaje == Some(CodigoReenviado) {
        codigoEnviado := true;
      }
      loading := false;
    }

    /** `handleCambiarContrasena` with the backend's reply, as intended: a
        form that fails `ChangeError` shows that message and sends nothing;
        otherwise the change has the effect `ChangeEffectOf` states and
        loading ends false. */
    method HandleCambiarContrasena(reply: Response) returns (request: Option<Request>, toAuth: bool)
      modifies this
      ensures ChangeError(old(email), old(codigo), old(nuevaPassword)).Some? ==>
        && request == None && !toAuth
        && mensaje == ChangeError(old(email), old(codigo), old(nuevaPassword))
        && loading == old(loading)
      ensures ChangeError(old(email), old(codigo), old(nuevaPassword)).None? ==>
        && ChangeEffect(request, mensaje, toAuth) == ChangeEffectOf(email, codigo, nuevaPassword, reply)
        && !loading
      ensures email == old(email) && codigo == old(codigo) && nuevaPassword == old(nuevaPassword)
      ensures codigoEnviado == old(codigoEnviado)
    {
      var error := ChangeError(email, codigo, nuevaPassword);
      if error.Some? {
        mensaje := error;
        return None, false;
      }
      loading := true;
      request := Some(CambiarContrasena(email, codigo, nuevaPassword));
      mensaje := reply.mensaje;
      toAuth := reply.mensaje == Some(PasswordActualizada);
      loading := false;
    }
  }

  /** With the button enabled, the only local check that can still refuse
      the change for an empty field is the e-mail's, which the button
      ignores. */
  lemma ChangeEnabledFieldsFilled(s: PasswordResetScreen)
    requires !s.ChangeDisabled()
    ensures ChangeError(s.email, s.codigo, s.nuevaPassword) == Some(CamposObligatorios) <==> s.email == ""
  {
  }

  /** With the resend button enabled its handler never refuses for an
      empty e-mail, and no request is pending. */
  lemma ResendEnabledPassesGuard(s: PasswordResetScreen)
    requires !s.ResendDisabled()
    ensures s.email != "" && !s.loading
  {
  }
}
