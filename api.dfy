/** The records and replies exchanged with the backend, the requests the
    screens send, and what a screen shows the user. The backend itself is not
    modelled: every reply a handler receives is an input of that handler. */
module Api {
  import opened Wrappers

  /** One numbered item of a vendor, as the backend lists it. */
  datatype Record = Record(numero: int, cliente: Option<string>, estado: string, cuotasPagadas: int)

  /** A reply of the backend. Each property is absent when the JSON object
      does not carry it; `numeros` lists entries that may be something other
      than an object (`None`). */
  datatype Response = Response(
    mensaje: Option<string>,
    idVendedor: Option<int>,
    numeros: Option<seq<Option<Record>>>)

  /** A request, one constructor per action of the backend. */
  datatype Request =
    | CrearVendedor(nombre: string, email: string, password: string)
    | ValidarCodigo(email: string, codigo: string)
    | AutenticarVendedor(email: string, password: string)
    | ReenviarCodigo(email: string)
    | CambiarContrasena(email: string, codigo: string, nuevaPassword: string)
    | AgregarNumeros(idVendedor: int, numeros: seq<string>)
    | EditarNumero(idVendedor: int, numero: int, cliente: string, estado: string, cuotasPagadas: int)
    | ObtenerNumeros(idVendedor: int)

  /** The action name a request is posted under. */
  function Accion(req: Request): string {
    match req
    case CrearVendedor(_, _, _) => "crearVendedor"
    case ValidarCodigo(_, _) => "validarCodigo"
    case AutenticarVendedor(_, _) => "autenticarVendedor"
    case ReenviarCodigo(_) => "reenviarCodigo"
    case CambiarContrasena(_, _, _) => "cambiarContrasena"
    case AgregarNumeros(_, _) => "agregarNumeros"
    case EditarNumero(_, _, _, _, _) => "editarNumero"
    case ObtenerNumeros(_) => "obtenerNumeros"
  }

  /** The reply the client substitutes for any failure of the transport or
      of JSON decoding: only a message naming the action. */
  function FailureReply(req: Request): (r: Response)
    ensures r.idVendedor.None? && r.numeros.None?
    ensures r.mensaje.Some? && |r.mensaje.value| > |"Error al procesar la solicitud de "|
  {
    Response(Some("Error al procesar la solicitud de " + Accion(req)), None, None)
  }

  /** JavaScript truthiness of an optional vendor id: absent and 0 are false. */
  predicate Truthy(id: Option<int>) {
    id.Some? && id.value != 0
  }

  /** An `Alert.alert(title, message)` dialog; the message may be `undefined`. */
  datatype Alert = Alert(title: string, message: Option<string>)
}
