/** The bulk-add dialog (components/AddNumeroModal.js): the typed list of
    numbers is split at commas, each piece trimmed and zero-padded, the list
    sent to the backend, and the reply decides whether the draft is cleared
    and the caller told to refresh. */
module AddNumero {
  import opened Wrappers
  import opened JsText
  import opened Seqs
  import opened Api

  const ExitoAgregar := "Números agregados correctamente"
  const FaltanNumeros := "Debes ingresar al menos un número."
  const NoSeAgregaron := "No se pudieron agregar los números."

  predicate EndsWith(s: string, suffix: string) {
    |suffix| <= |s| && s[|s| - |suffix|..] == suffix
  }

  /** What padding makes of one piece: a trimmed piece shorter than five
      code units becomes exactly five, zeros followed by the piece; a longer
      one is kept as it is. */
  predicate PaddedFrom(piece: string, token: string) {
    var t := Trim(piece);
    && EndsWith(token, t)
    && (forall i :: 0 <= i < |token| - |t| ==> token[i] == '0')
    && (JsLength(t) < 5 ==> JsLength(token) == 5)
    && (JsLength(t) >= 5 ==> token == t)
  }

  /** `numeros.split(',').map(num => num.trim().padStart(5, '0'))`: one
      token per comma-separated piece, in input order, with no check of
      range, digits or duplicates. */
  function NormalizeTokens(input: string): (r: seq<string>)
    ensures |r| == Occurrences(input, ',') + 1
    ensures forall i :: 0 <= i < |r| ==> PaddedFrom(Split(input, ',')[i], r[i])
  {
    var pieces := Split(input, ',');
    seq(|pieces|, i requires 0 <= i < |pieces| => PadToken(pieces[i]))
  }

  /** `num.trim().padStart(5, '0')` for one piece. */
  function PadToken(piece: string): (token: string)
    ensures PaddedFrom(piece, token)
  {
    PadStartZeros(Trim(piece), 5)
  }

  /** A piece that is empty or whitespace only is sent as "00000". */
  lemma BlankPieceIsZeros(input: string, i: int)
    requires 0 <= i < |Split(input, ',')|
    requires forall k :: 0 <= k < |Split(input, ',')[i]| ==> IsWhitespace(Split(input, ',')[i][k])
    ensures NormalizeTokens(input)[i] == "00000"
  {
    BlankPadsToZeros(Split(input, ',')[i]);
  }

  lemma BlankPadsToZeros(piece: string)
    requires forall k :: 0 <= k < |piece| ==> IsWhitespace(piece[k])
    ensures PadToken(piece) == "00000"
  {
    assert Trim(piece) == "";
    assert JsLength("") == 0;
    var t := PadToken(piece);
    assert |t| == 5 && forall k :: 0 <= k < 5 ==> t[k] == '0';
  }

  /** The reply reports success when its message contains the fixed
      sentence. */
  predicate AddSucceeded(mensaje: string) {
    Contains(mensaje, ExitoAgregar)
  }

  /** `agregados`: the tokens the message mentions, in token order; a token
      sent twice and mentioned is kept twice. */
  function Agregados(tokens: seq<string>, mensaje: string): (r: seq<string>)
    ensures IsSubseq(r, tokens)
    ensures forall t :: multiset(r)[t] == if Contains(mensaje, t) then multiset(tokens)[t] else 0
    ensures forall t :: t in r <==> t in tokens && Contains(mensaje, t)
  {
    Filter((t: string) => Contains(mensaje, t), tokens)
  }

  /** The reply substituted for a failed request never reads as success:
      its message lacks the `ú` of the success sentence. */
  lemma FailureReplyIsNotSuccess(idVendedor: int, tokens: seq<string>)
    ensures !AddSucceeded(FailureReply(AgregarNumeros(idVendedor, tokens)).mensaje.value)
  {
    var m := FailureReply(AgregarNumeros(idVendedor, tokens)).mensaje.value;
    FailureMessageLacksAcute(m);
    assert ExitoAgregar[1] == 'ú';
    MissingCharNotContained(m, ExitoAgregar, 'ú');
  }

  lemma FailureMessageLacksAcute(m: string)
    requires m == "Error al procesar la solicitud de " + "agregarNumeros"
    ensures 'ú' !in m
  {
    FailurePrefixSplits();
    FailurePiecesLackAcute();
  }

  lemma FailurePrefixSplits()
    ensures "Error al procesar la solicitud de " == "Error al procesar " + "la solicitud de "
  {
  }

  lemma FailurePiecesLackAcute()
    ensures 'ú' !in "Error al procesar " && 'ú' !in "la solicitud de " && 'ú' !in "agregarNumeros"
  {
  }

  /** What the reply to a sent list does: the alert shown, whether
      `onSuccess` is called, and the new draft and list of added numbers. */
  datatype ReplyEffect = ReplyEffect(alert: Option<Alert>, onSuccess: bool, numeros: string, listaNumeros: seq<string>)

  /** The reply's effect on a dialog holding `listaNumeros` and the draft
      `numeros`, after sending `tokens`. A missing message makes
      `includes` throw into the error alert and changes nothing. A message
      containing the success sentence appends the tokens it mentions,
      clears the draft and calls `onSuccess`; any other message leaves
      both. A non-empty message is shown as the result. */
  function AfterReply(listaNumeros: seq<string>, numeros: string, tokens: seq<string>, reply: Response): (e: ReplyEffect)
    ensures e.onSuccess <==> reply.mensaje.Some? && AddSucceeded(reply.mensaje.value)
    ensures e.onSuccess ==>
      e.numeros == "" && e.listaNumeros == listaNumeros + Agregados(tokens, reply.mensaje.value)
    ensures !e.onSuccess ==> e.numeros == numeros && e.listaNumeros == listaNumeros
    ensures reply.mensaje.None? ==> e.alert == Some(Alert("Error", Some(NoSeAgregaron)))
    ensures reply.mensaje.Some? ==>
      (e.alert.Some? <==> reply.mensaje.value != "") &&
      (e.alert.Some? ==> e.alert.value == Alert("Resultado", reply.mensaje))
  {
    match reply.mensaje
    case None => ReplyEffect(Some(Alert("Error", Some(NoSeAgregaron))), false, numeros, listaNumeros)
    case Some(m) =>
      var alert := if m != "" then Some(Alert("Resultado", reply.mensaje)) else None;
      if AddSucceeded(m) then ReplyEffect(alert, true, "", listaNumeros + Agregados(tokens, m))
      else ReplyEffect(alert, false, numeros, listaNumeros)
  }

  /** The added numbers only ever grow, by sent tokens. */
  lemma AddedOnlyGrow(listaNumeros: seq<string>, numeros: string, tokens: seq<string>, reply: Response)
    ensures var e := AfterReply(listaNumeros, numeros, tokens, reply);
      |e.listaNumeros| >= |listaNumeros| && e.listaNumeros[..|listaNumeros|] == listaNumeros &&
      forall t :: t in e.listaNumeros[|listaNumeros|..] ==> t in tokens
  {
    var e := AfterReply(listaNumeros, numeros, tokens, reply);
    if e.onSuccess {
      assert e.listaNumeros[|listaNumeros|..] == Agregados(tokens, reply.mensaje.value);
    }
  }

  /** The dialog's state: the draft text, the numbers added so far, and the
      loading flag. */
  class AddNumeroModal {
    const idVendedor: int
    var numeros: string
    var listaNumeros: seq<string>
    var loading: bool

    constructor (idVendedor: int)
      ensures this.idVendedor == idVendedor
      ensures numeros == "" && listaNumeros == [] && !loading
    {
      this.idVendedor := idVendedor;
      numeros := "";
      listaNumeros := [];
      loading := false;
    }

    /** `handleAgregar` with the backend's reply. A blank draft is refused
        before any request and leaves the dialog open. Otherwise the
        tokens are sent, the reply has the effect `AfterReply` describes,
        loading ends false and the dialog is closed. */
    method HandleAgregar(reply: Response)
      returns (request: Option<Request>, alert: Option<Alert>, onSuccess: bool, onClose: bool)
      modifies this
      ensures Trim(old(numeros)) == "" ==>
        && request == None && alert == Some(Alert("Error", Some(FaltanNumeros)))
        && !onSuccess && !onClose
        && numeros == old(numeros) && listaNumeros == old(listaNumeros) && loading == old(loading)
      ensures Trim(old(numeros)) != "" ==>
        && request == Some(AgregarNumeros(idVendedor, NormalizeTokens(old(numeros))))
        && ReplyEffect(alert, onSuccess, numeros, listaNumeros)
           == AfterReply(old(listaNumeros), old(numeros), NormalizeTokens(old(numeros)), reply)
        && !loading && onClose
    {
      onSuccess, onClose := false, false;
      if Trim(numeros) == "" {
        request, alert := None, Some(Alert("Error", Some(FaltanNumeros)));
        return;
      }
      var nuevosNumeros := NormalizeTokens(numeros);
      loading := true;
      request := Some(AgregarNumeros(idVendedor, nuevosNumeros));
      alert, onSuccess := ApplyReply(nuevosNumeros, reply);
      loading := false;
      onClose := true;
    }

    /** The `try` block of `handleAgregar` once the tokens are sent. */
    method ApplyReply(nuevosNumeros: seq<string>, reply: Response) returns (alert: Option<Alert>, onSuccess: bool)
      modifies this
      ensures ReplyEffect(alert, onSuccess, numeros, listaNumeros)
              == AfterReply(old(listaNumeros), old(numeros), nuevosNumeros, reply)
      ensures loading == old(loading)
    {
      onSuccess := false;
      if reply.mensaje.None? {
        // `response.mensaje.includes` throws on a missing message
        alert := Some(Alert("Error", Some(NoSeAgregaron)));
        return;
      }
      var mensaje := reply.mensaje.value;
      if AddSucceeded(mensaje) {
        listaNumeros := listaNumeros + Agregados(nuevosNumeros, mensaje);
        numeros := "";
        onSuccess := true;
      }
      alert := if mensaje != "" then Some(Alert("Resultado", reply.mensaje)) else None;
    }
  }
}
