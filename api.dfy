/**
 * The API client of the front end (`service/api.tsx`): one function per backend
 * operation. Each one receives how its HTTP request settled and either returns a
 * value, throws a fixed classified `Error`, or rethrows the transport error as it
 * came. Several functions currently return mock data before reaching their request;
 * those are modelled as they run now (`AuthLogin`, `Transferencia`, ...), and the
 * code written after the early return is modelled beside them (`AuthLoginRequest`,
 * `TransferenciaRequest`, ...).
 */
module Api {
  import opened Common

  // ---- What a request settles to, and what a call hands back ----

  /**
   * How one axios request settles: a response body, a failure carrying a response
   * (its status, the `error` field of its body, and axios's own message text), or a
   * failure with no response at all (connection refused, DNS, ...).
   */
  datatype HttpOutcome<T> =
    | Ok(data: T)
    | HttpError(status: int, tag: string, text: string)
    | NetworkError(text: string)

  /** The `response` of a rethrown axios error: its status and body tag. */
  datatype Response = Response(status: int, tag: string)

  /** What an API function throws. */
  datatype Thrown =
    | Classified(message: string)                            // `new Error(message)`: no `response`
    | Rethrown(response: Option<Response>, message: string)  // the original axios error, unchanged
  {
    /** `error.response?.status` as the screens read it. */
    function Status(): (s: Option<int>)
      ensures s.Some? <==> Rethrown? && response.Some?
      ensures s.Some? ==> s.value == response.value.status
    {
      if Rethrown? && response.Some? then Some(response.value.status) else None
    }
  }

  /** How an awaited API call ends: a returned value or a thrown error. */
  datatype Call<T> = Returned(value: T) | Threw(error: Thrown)

  /** `throw error` of a failed request: the transport error goes up as it was. */
  function Rethrow<T>(o: HttpOutcome<T>): (e: Thrown)
    requires !o.Ok?
    ensures e.Rethrown? && e.message == o.text
    ensures e.Status() == (if o.HttpError? then Some(o.status) else None)
    ensures o.HttpError? ==> e.response == Some(Response(o.status, o.tag))
  {
    match o
    case HttpError(status, tag, text) => Rethrown(Some(Response(status, tag)), text)
    case NetworkError(text) => Rethrown(None, text)
  }

  /**
   * The failure contract of a status classifier: a failed request whose response
   * status is a key of `messages` throws that fixed message, and every other failure
   * (including one with no response) is rethrown unchanged.
   */
  ghost predicate ClassifiedByStatus<T, U>(o: HttpOutcome<T>, r: Call<U>, messages: map<int, string>)
    requires !o.Ok?
  {
    r == Threw(if o.HttpError? && o.status in messages then Classified(messages[o.status]) else Rethrow(o))
  }

  // ---- Request and reply records ----

  datatype RegisterForm = RegisterForm(nombre: string, telefono: string)
  datatype LoginForm = LoginForm(telefono: string)
  datatype TransferForm = TransferForm(destinatarioNumero: string, monto: int, descripcion: string)

  /** The two shapes `GetSaldo` can return: the object `{saldo}` or a bare number. */
  datatype SaldoReply = SaldoObject(saldo: int) | SaldoNumber(amount: int)

  /** The transfer acknowledgement `{status}`. */
  datatype TransferReply = TransferReply(status: int)

  /** Records of the two transfer lists; `fecha` is the date as an integer key (yyyymmdd). */
  datatype SentTransfer = SentTransfer(nombreDestinatario: string, monto: int, fecha: int, descripcion: string)
  datatype ReceivedTransfer = ReceivedTransfer(nombreRemitente: string, monto: int, fecha: int, descripcion: string)

  datatype PromoSummary = PromoSummary(id: string, nombreTienda: string, nombreProducto: string, descuento: int, precio: int)
  /** A promotion's details; the mock carries no `id`, hence the option. */
  datatype PromoDetail = PromoDetail(id: Option<string>, nombreTienda: string, nombreProducto: string, descuento: int,
                                     precio: int, descripcion: string, diaInicial: string, diaFinal: string)

  /** The payment body `{codigo}` and the two shapes `PagarPromocion` can return. */
  datatype PaymentBody = PaymentBody(codigo: string)
  datatype PaymentReply = CodigoObject(codigo: string) | CodigoText(codigo: string)

  datatype Pago = Pago(destinatarioNombre: string, monto: int, productoNombre: string, fecha: string, codigo: string)

  // ---- Fixed messages ----

  const DuplicatePhone: string := "Ya existe un usuario con ese teléfono"
  const UnknownPhone: string := "No existe un usuario con ese teléfono"
  const UnknownRecipient: string := "No existe usuario"
  const InsufficientBalance: string := "No tienes suficiente saldo"
  const PromotionExpired: string := "La promoción está fuera de vigencia"
  const UnknownStore: string := "No existe la tienda"
  const UnknownPromotion: string := "No existe la promoción"
  const NoPayments: string := "No se encontraron pagos para el cliente"

  /** Status-to-message tables, one per classifier. */
  const RegisterMessages: map<int, string> := map[409 := DuplicatePhone]
  const LoginMessages: map<int, string> := map[400 := UnknownPhone]
  const TransferMessages: map<int, string> := map[404 := UnknownRecipient, 401 := InsufficientBalance]
  const PagosMessages: map<int, string> := map[404 := NoPayments]
  /** The payment classifier keys on the status and the `error` tag of the body together. */
  const PaymentMessages: map<Response, string> :=
    map[Response(401, "No hay saldo") := InsufficientBalance,
        Response(401, "Promocion fuera vigencia") := PromotionExpired,
        Response(404, "No hay tienda") := UnknownStore,
        Response(404, "No hay promocion") := UnknownPromotion]

  // ---- Authentication ----

  /** POST /auth/register: the reply body `{id}`, or 409 classified, or the error rethrown. */
  function AuthRegister(form: RegisterForm, o: HttpOutcome<int>): (r: Call<int>)
    ensures r.Returned? <==> o.Ok?
    ensures o.Ok? ==> r.value == o.data
    ensures !o.Ok? ==> ClassifiedByStatus(o, r, RegisterMessages)
  {
    match o
    case Ok(data) => Returned(data)
    case HttpError(status, _, _) =>
      if status == 409 then Threw(Classified("Ya existe un usuario con ese teléfono")) else Threw(Rethrow(o))
    case NetworkError(_) => Threw(Rethrow(o))
  }

  /** POST /auth/login as it runs now: `{id: 1}` before any request is made. */
  function AuthLogin(form: LoginForm, o: HttpOutcome<int>): (r: Call<int>)
    ensures r.Returned? && r.value == 1
  {
    Returned(1)
  }

  /** The request code of `AuthLogin` below its early return. */
  function AuthLoginRequest(form: LoginForm, o: HttpOutcome<int>): (r: Call<int>)
    ensures r.Returned? <==> o.Ok?
    ensures o.Ok? ==> r.value == o.data
    ensures !o.Ok? ==> ClassifiedByStatus(o, r, LoginMessages)
  {
    match o
    case Ok(data) => Returned(data)
    case HttpError(status, _, _) =>
      if status == 400 then Threw(Classified("No existe un usuario con ese teléfono")) else Threw(Rethrow(o))
    case NetworkError(_) => Threw(Rethrow(o))
  }

  /** The login classifier exists but cannot be reached: every outcome, 400 included, yields id 1. */
  lemma LoginClassifierUnreachable(form: LoginForm, tag: string, text: string)
    ensures AuthLoginRequest(form, HttpError(400, tag, text)) == Threw(Classified(UnknownPhone))
    ensures AuthLogin(form, HttpError(400, tag, text)) == Returned(1)
  {
  }

  // ---- Balance ----

  /**
   * GET /cuenta/{id}/saldo. A null or empty id short-circuits to the object
   * `{saldo: 0}` without a request; otherwise the bare number `response.data.saldo`
   * is returned, or the failure rethrown.
   */
  function GetSaldo(id: Option<string>, o: HttpOutcome<int>): (r: Call<SaldoReply>)
    ensures !Truthy(id) ==> r == Returned(SaldoObject(0))
    ensures Truthy(id) ==> (r.Returned? <==> o.Ok?)
    ensures Truthy(id) && o.Ok? ==> r.value == SaldoNumber(o.data)
    ensures Truthy(id) && !o.Ok? ==> r == Threw(Rethrow(o))
  {
    if !Truthy(id) then Returned(SaldoObject(0))
    else match o
      case Ok(saldo) => Returned(SaldoNumber(saldo))
      case _ => Threw(Rethrow(o))
  }

  /** Without an id the request outcome plays no part (no request is made), and the reply shape tells the two paths apart. */
  lemma GetSaldoWithoutIdMakesNoRequest(id: Option<string>, o1: HttpOutcome<int>, o2: HttpOutcome<int>)
    requires !Truthy(id)
    ensures GetSaldo(id, o1) == GetSaldo(id, o2)
    ensures GetSaldo(Some("1"), Ok(0)) != GetSaldo(id, o1)
  {
  }

  // ---- Transfers ----

  /** POST /movimiento/transferencia/{remitente_id} as it runs now: `{status: 200}` before any request. */
  function Transferencia(remitenteId: string, form: TransferForm, o: HttpOutcome<TransferReply>): (r: Call<TransferReply>)
    ensures r.Returned? && r.value.status == 200
  {
    Returned(TransferReply(200))
  }

  /** The request code of `Transferencia` below its early return: 404 and 401 classified, the rest rethrown. */
  function TransferenciaRequest(remitenteId: string, form: TransferForm, o: HttpOutcome<TransferReply>): (r: Call<TransferReply>)
    ensures r.Returned? <==> o.Ok?
    ensures o.Ok? ==> r.value == o.data
    ensures !o.Ok? ==> ClassifiedByStatus(o, r, TransferMessages)
  {
    match o
    case Ok(data) => Returned(data)
    case HttpError(status, _, _) =>
      if status == 404 then Threw(Classified("No existe usuario"))
      else if status == 401 then Threw(Classified("No tienes suficiente saldo"))
      else Threw(Rethrow(o))
    case NetworkError(_) => Threw(Rethrow(o))
  }

  /** The sent-transfer list `GetDestinatarios` returns now. */
  const MockDestinatarios: seq<SentTransfer> :=
    [SentTransfer("Juan Perez", 500, 20240927, "Transferencia"),
     SentTransfer("Maria Lopez", 300, 20240928, "Pago de servicios")]

  /** The received-transfer list `GetRemitentes` returns now. */
  const MockRemitentes: seq<ReceivedTransfer> :=
    [ReceivedTransfer("Michael Hinojosa", 400, 20240926, "Te debo"),
     ReceivedTransfer("Mikel Bracamonte", 200, 20240928, "Pagado")]

  /** GET /transferencias/cliente/{id}/destinatarios as it runs now: the fixed list, whatever the id. */
  function GetDestinatarios(id: string): (r: Call<seq<SentTransfer>>)
    ensures r == Returned(MockDestinatarios)
    ensures r.Returned? && |r.value| == 2
    ensures forall t :: t in r.value ==> t.monto > 0
  {
    Returned(MockDestinatarios)
  }

  /** GET .../remitentes as it runs now: the fixed list, whatever the id. */
  function GetRemitentes(id: string): (r: Call<seq<ReceivedTransfer>>)
    ensures r == Returned(MockRemitentes)
    ensures r.Returned? && |r.value| == 2
    ensures forall t :: t in r.value ==> t.monto > 0
  {
    Returned(MockRemitentes)
  }

  /** The request code of the list fetches below their early returns: the body, or the failure rethrown. */
  function ListRequest<T>(o: HttpOutcome<seq<T>>): (r: Call<seq<T>>)
    ensures r.Returned? <==> o.Ok?
    ensures o.Ok? ==> r.value == o.data
    ensures !o.Ok? ==> ClassifiedByStatus(o, r, map[])
  {
    match o
    case Ok(data) => Returned(data)
    case _ => Threw(Rethrow(o))
  }

  /** The two transfer-list endpoints. */
  datatype TransferList = Destinatarios | Remitentes

  /** The path each list fetch's request code asks for. */
  function RequestPath(list: TransferList, id: string): (p: string)
    ensures |p| == |"/transferencias/cliente/"| + |id| + |"/destinatarios"|
    ensures p[..|p| - |"/destinatarios"|] == "/transferencias/cliente/" + id
    ensures p[|p| - |"/destinatarios"|..] == "/destinatarios"
  {
    match list
    // both branches ask for the sent-transfer list: GetRemitentes reuses its sibling's path
    case Destinatarios => "/transferencias/cliente/" + id + "/destinatarios"
    case Remitentes => "/transferencias/cliente/" + id + "/destinatarios"
  }

  /** The received-transfer fetch asks for the same URL as the sent-transfer fetch, never a `/remitentes` one. */
  lemma RemitentesRequestsDestinatariosPath(id: string)
    ensures RequestPath(Remitentes, id) == RequestPath(Destinatarios, id)
    ensures RequestPath(Remitentes, id) != "/transferencias/cliente/" + id + "/remitentes"
  {
    assert |RequestPath(Remitentes, id)| != |"/transferencias/cliente/" + id + "/remitentes"|;
  }

  // ---- Promotions and payments ----

  const MockPromociones: seq<PromoSummary> :=
    [PromoSummary("1", "Tienda A", "Producto 1", 10, 100),
     PromoSummary("2", "Tienda B", "Producto 2", 20, 200)]

  const MockPromocion: PromoDetail :=
    PromoDetail(None, "Tienda A", "Producto 1", 10, 100, "Descripción del producto", "2024-09-01", "2024-09-30")

  /** GET /promociones as it runs now: the fixed list. */
  function GetPromociones(): (r: Call<seq<PromoSummary>>)
    ensures r == Returned(MockPromociones)
    ensures r.Returned? && |r.value| == 2
  {
    Returned(MockPromociones)
  }

  /** GET /promocion/{id} as it runs now: the same fixed details for every id, without an `id` field. */
  function GetPromocion(id: string): (r: Call<PromoDetail>)
    ensures r == Returned(MockPromocion)
    ensures r.Returned? && r.value.id.None?
  {
    Returned(MockPromocion)
  }

  /** POST /movimiento/pago/promocion/{id} as it runs now: the object `{codigo: "PROMO123"}`. */
  function PagarPromocion(id: Option<string>, personaId: string, o: HttpOutcome<PaymentBody>): (r: Call<PaymentReply>)
    ensures r.Returned? && r.value.CodigoObject? && r.value.codigo == "PROMO123"
  {
    Returned(CodigoObject("PROMO123"))
  }

  /**
   * The request code of `PagarPromocion` below its early return: the bare string
   * `response.data.codigo` on success; a failure is classified by its status and
   * body tag together, and every other failure is rethrown.
   */
  function PagarPromocionRequest(id: Option<string>, personaId: string, o: HttpOutcome<PaymentBody>): (r: Call<PaymentReply>)
    ensures r.Returned? <==> o.Ok?
    ensures o.Ok? ==> r.value == CodigoText(o.data.codigo)
    ensures o.HttpError? && Response(o.status, o.tag) in PaymentMessages ==>
              r == Threw(Classified(PaymentMessages[Response(o.status, o.tag)]))
    ensures !o.Ok? && !(o.HttpError? && Response(o.status, o.tag) in PaymentMessages) ==> r == Threw(Rethrow(o))
  {
    match o
    case Ok(body) => Returned(CodigoText(body.codigo))
    case NetworkError(_) => Threw(Rethrow(o))
    case HttpError(status, tag, _) =>
      if status == 401 && tag == "No hay saldo" then Threw(Classified("No tienes suficiente saldo"))
      else if status == 401 && tag == "Promocion fuera vigencia" then Threw(Classified("La promoción está fuera de vigencia"))
      else if status == 404 && tag == "No hay tienda" then Threw(Classified("No existe la tienda"))
      else if status == 404 && tag == "No hay promocion" then Threw(Classified("No existe la promoción"))
      else Threw(Rethrow(o))
  }

  /** The mock and the request code return differently shaped values for the same code. */
  lemma PaymentReplyShapesDiffer(id: Option<string>, personaId: string, o: HttpOutcome<PaymentBody>)
    ensures PagarPromocion(id, personaId, o) != PagarPromocionRequest(id, personaId, Ok(PaymentBody("PROMO123")))
  {
  }

  const MockPagos: seq<Pago> :=
    [Pago("Tienda A", 100, "Producto 1", "2024-09-27", "PROMO123"),
     Pago("Tienda B", 200, "Producto 2", "2024-09-28", "PROMO456")]

  /** GET /movimiento/pagos as it runs now: two fixed records. */
  function GetPagos(o: HttpOutcome<seq<Pago>>): (r: Call<seq<Pago>>)
    ensures r == Returned(MockPagos)
    ensures r.Returned? && |r.value| == 2
  {
    Returned(MockPagos)
  }

  /** The request code of `GetPagos` below its early return: 404 classified, the rest rethrown. */
  function GetPagosRequest(o: HttpOutcome<seq<Pago>>): (r: Call<seq<Pago>>)
    ensures r.Returned? <==> o.Ok?
    ensures o.Ok? ==> r.value == o.data
    ensures !o.Ok? ==> ClassifiedByStatus(o, r, PagosMessages)
  {
    match o
    case Ok(data) => Returned(data)
    case HttpError(status, _, _) =>
      if status == 404 then Threw(Classified("No se encontraron pagos para el cliente")) else Threw(Rethrow(o))
    case NetworkError(_) => Threw(Rethrow(o))
  }
}
