/** The dialog that edits one number (components/EditNumeroModal.js): its
    form is seeded from the record, the paid-instalment counter is moved one
    step at a time within 0..12, and saving sends the form to the backend
    and shows a one-word outcome. */
module EditNumero {
  import opened Wrappers
  import opened Api

  const ExitoEditar := "Número actualizado correctamente"
  const MaxCuotas := 12

  /** The `-` button: one instalment fewer, never below zero. */
  function Bajar(c: int): (r: int)
    ensures r >= 0
    ensures c >= 1 ==> r == c - 1
    ensures c <= 1 ==> r == 0
  {
    if c - 1 > 0 then c - 1 else 0
  }

  /** The `+` button: one instalment more, never above twelve. */
  function Subir(c: int): (r: int)
    ensures r <= MaxCuotas
    ensures c <= MaxCuotas - 1 ==> r == c + 1
    ensures c >= MaxCuotas - 1 ==> r == MaxCuotas
  {
    if c + 1 < MaxCuotas then c + 1 else MaxCuotas
  }

  /** A counter inside 0..12 stays there whichever button is pressed. */
  lemma {:induction false} BotonesKeepRange(c: int)
    requires 0 <= c <= MaxCuotas
    ensures 0 <= Bajar(c) <= MaxCuotas && 0 <= Subir(c) <= MaxCuotas
  {
  }

  /** Inside the range the two buttons undo each other. */
  lemma {:induction false} BotonesUndoEachOther(c: int)
    ensures 0 < c <= MaxCuotas ==> Subir(Bajar(c)) == c
    ensures 0 <= c < MaxCuotas ==> Bajar(Subir(c)) == c
  {
  }

  /** A stored count above twelve is pulled down to twelve by `+` (it is
      only clamped, not checked, when the record seeds the form). */
  lemma {:induction false} SubirClampsLargeCount(c: int)
    requires c > MaxCuotas
    ensures Subir(c) == MaxCuotas < c
  {
  }

  /** The form values the record seeds: a missing client becomes the
      empty string. */
  function SeedCliente(numero: Record): (cliente: string)
    ensures numero.cliente.Some? ==> cliente == numero.cliente.value
    ensures numero.cliente.None? ==> cliente == ""
  {
    numero.cliente.GetOr("")
  }

  /** The save guard: both text fields must be non-empty. The check that
      the instalment count is an empty string can never hold for the
      numeric counter. */
  predicate FormComplete(cliente: string, estado: string) {
    cliente != "" && estado != ""
  }

  /** The message box text after a save that reached the backend: the
      state setter keeps only its first argument, so the box reads "Éxito"
      or "Error" and never the longer sentence written beside it. */
  function SaveMessage(reply: Response): (m: string)
    ensures m == "Éxito" <==> reply.mensaje == Some(ExitoEditar)
    ensures m == "Éxito" || m == "Error"
  {
    if reply.mensaje == Some(ExitoEditar) then "Éxito" else "Error"
  }

  /** The reply substituted for a failed request is reported as an error. */
  lemma FailureReplyIsError(req: Request)
    requires req.EditarNumero?
    ensures SaveMessage(FailureReply(req)) == "Error"
  {
    assert Accion(req) == "editarNumero";
    assert |FailureReply(req).mensaje.value| != |ExitoEditar|;
  }

  class EditNumeroModal {
    const idVendedor: int
    var cliente: string
    var estado: string
    var cuotasPagadas: int
    var loading: bool
    var mensajeAPI: Option<string>

    constructor (idVendedor: int)
      ensures this.idVendedor == idVendedor
      ensures cliente == "" && estado == "" && cuotasPagadas == 0
      ensures !loading && mensajeAPI.None?
    {
      this.idVendedor := idVendedor;
      cliente, estado, cuotasPagadas := "", "", 0;
      loading, mensajeAPI := false, None;
    }

    /** The effect run when the `numero` property changes: a present record
        replaces the three form fields; an absent one leaves them. */
    method Seed(numero: Option<Record>)
      modifies this
      ensures numero.Some? ==>
        && cliente == SeedCliente(numero.value)
        && estado == numero.value.estado
        && cuotasPagadas == numero.value.cuotasPagadas
      ensures numero.None? ==>
        cliente == old(cliente) && estado == old(estado) && cuotasPagadas == old(cuotasPagadas)
      ensures loading == old(loading) && mensajeAPI == old(mensajeAPI)
    {
      if numero.Some? {
        cliente := SeedCliente(numero.value);
        estado := numero.value.estado;
        cuotasPagadas := numero.value.cuotasPagadas;
      }
    }

    method Decrement()
      modifies this
      ensures cuotasPagadas == Bajar(old(cuotasPagadas))
      ensures cliente == old(cliente) && estado == old(estado)
      ensures loading == old(loading) && mensajeAPI == old(mensajeAPI)
    {
      cuotasPagadas := Bajar(cuotasPagadas);
    }

    method Increment()
      modifies this
      ensures cuotasPagadas == Subir(old(cuotasPagadas))
      ensures cliente == old(cliente) && estado == old(estado)
      ensures loading == old(loading) && mensajeAPI == old(mensajeAPI)
    {
      cuotasPagadas := Subir(cuotasPagadas);
    }

    /** `handleSave` for the record on display, with the backend's reply. An
        incomplete form shows "Error" and sends nothing; otherwise the form
        is sent, `onSave` is called exactly when the reply carries the
        success sentence, and loading ends false. The form is left as it
        is either way. */
    method HandleSave(numero: Record, reply: Response) returns (request: Option<Request>, onSave: bool)
      modifies this
      ensures !FormComplete(old(cliente), old(estado)) ==>
        request == None && !onSave && mensajeAPI == Some("Error") && loading == old(loading)
      ensures FormComplete(old(cliente), old(estado)) ==>
        && request == Some(EditarNumero(idVendedor, numero.numero, cliente, estado, cuotasPagadas))
        && onSave == (reply.mensaje == Some(ExitoEditar))
        && mensajeAPI == Some(SaveMessage(reply))
        && !loading
      ensures cliente == old(cliente) && estado == old(estado) && cuotasPagadas == old(cuotasPagadas)
    {
      if !FormComplete(cliente, estado) {
        request, onSave := None, false;
        mensajeAPI := Some("Error");
        return;
      }
      loading := true;
      request := Some(EditarNumero(idVendedor, numero.numero, cliente, estado, cuotasPagadas));
      onSave := reply.mensaje == Some(ExitoEditar);
      mensajeAPI := Some(SaveMessage(reply));
      loading := false;
    }

    /** `handleClose`, run by the "Cerrar" button and by the system back
        action: the message is cleared and `onClose` is called. */
    method HandleClose() returns (onClose: bool)
      modifies this
      ensures onClose
      ensures mensajeAPI.None?
      ensures cliente == old(cliente) && estado == old(estado) && cuotasPagadas == old(cuotasPagadas)
      ensures loading == old(loading)
    {
      mensajeAPI := None;
      onClose := true;
    }

    /** The message box's own OK button: the message is cleared and the
        dialog stays open. */
    method DismissMessage() returns (onClose: bool)
      modifies this
      ensures !onClose
      ensures mensajeAPI.None?
      ensures cliente == old(cliente) && estado == old(estado) && cuotasPagadas == old(cuotasPagadas)
      ensures loading == old(loading)
    {
      mensajeAPI := None;
      onClose := false;
    }
  }
}
