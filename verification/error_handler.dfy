/**
  The mapping from a failed request to the sentence shown to the user
  (`ErrorHandlerUtil`). Every store writes the `userFriendlyMessage` of this
  mapping into its `error` state.
*/
module ErrorHandler {
  import opened Wrappers
  import opened Strings

  /**
    What a failed request hands to the mapper.
    `HttpFailure` is an `HttpErrorResponse`: its status and the response
    body's `message` ("" when the body has none).
    `OtherFailure` is any other thrown value: `innerMessage` is its
    `error.message` and `message` its own `message` ("" when absent, as
    JavaScript treats an empty message like a missing one).
  */
  datatype RawError =
    | HttpFailure(status: int, bodyMessage: string)
    | OtherFailure(innerMessage: string, message: string)

  datatype ErrorInfo = ErrorInfo(message: string, userFriendlyMessage: string)

  const NetworkMessage := "No se puede conectar con el servidor. Verifica tu conexi\U{F3}n a internet."
  const InvalidDataMessage := "Los datos enviados no son v\U{E1}lidos."
  const SessionExpiredMessage := "Tu sesi\U{F3}n ha expirado. Por favor, inicia sesi\U{F3}n nuevamente."
  const ForbiddenMessage := "No tienes permisos para realizar esta acci\U{F3}n."
  const NotFoundMessage := "El recurso solicitado no fue encontrado."
  const ServerErrorMessage := "Error en el servidor. Por favor, intenta m\U{E1}s tarde."
  const UnexpectedMessage := "Ocurri\U{F3} un error inesperado. Por favor, intenta nuevamente."

  /** The sentence for a status the switch does not list. */
  function OtherStatusMessage(status: int): string {
    "Error del servidor (" + IntToString(status) + "). Por favor, intenta nuevamente."
  }

  /** The substring table of `getUserFriendlyMessage`, in declaration order. */
  const MessageTable: seq<(string, string)> := [
    ("already exists", "Este registro ya existe en el sistema."),
    ("not found", "El recurso solicitado no fue encontrado."),
    ("unauthorized", "No tienes permisos para realizar esta acci\U{F3}n."),
    ("invalid credentials", "Las credenciales proporcionadas no son v\U{E1}lidas.")
  ]

  /** Index of the first table key occurring in `lower`, if any. */
  function FirstMatch(table: seq<(string, string)>, lower: string): (r: Option<nat>)
    ensures r.Some? ==> r.value < |table| && Contains(lower, table[r.value].0)
    ensures r.Some? ==> forall j :: 0 <= j < r.value ==> !Contains(lower, table[j].0)
    ensures r.None? ==> forall j :: 0 <= j < |table| ==> !Contains(lower, table[j].0)
    decreases |table|
  {
    if |table| == 0 then None
    else if Contains(lower, table[0].0) then Some(0)
    else match FirstMatch(table[1..], lower)
      case None => None
      case Some(i) => Some(i + 1)
  }

  /**
    Rewrites a server message through the table: the first key, in table
    order, contained case-insensitively in the message wins; with no match
    the message comes back unchanged.
  */
  function GetUserFriendlyMessage(message: string): (r: string)
    ensures (forall j :: 0 <= j < |MessageTable| ==> !Contains(ToLower(message), MessageTable[j].0)) ==> r == message
    ensures forall i :: 0 <= i < |MessageTable| && Contains(ToLower(message), MessageTable[i].0)
                        && (forall j :: 0 <= j < i ==> !Contains(ToLower(message), MessageTable[j].0))
                        ==> r == MessageTable[i].1
  {
    match FirstMatch(MessageTable, ToLower(message))
    case Some(i) => MessageTable[i].1
    case None => message
  }

  /** The status switch of `handleHttpError`. */
  function HandleHttpError(status: int, bodyMessage: string): (r: ErrorInfo)
    ensures status == 0 ==> r.userFriendlyMessage == NetworkMessage
    ensures status == 400 ==> r.userFriendlyMessage == (if bodyMessage != "" then bodyMessage else InvalidDataMessage)
    ensures status == 401 ==> r.userFriendlyMessage == SessionExpiredMessage
    ensures status == 403 ==> r.userFriendlyMessage == ForbiddenMessage
    ensures status == 404 ==> r.userFriendlyMessage == NotFoundMessage
    ensures status == 500 ==> r.userFriendlyMessage == ServerErrorMessage
    ensures status !in {0, 400, 401, 403, 404, 500} ==>
              Contains(r.userFriendlyMessage, IntToString(status)) && r.message == "HTTP " + IntToString(status)
  {
    if status == 0 then ErrorInfo("Network error", NetworkMessage)
    else if status == 400 then
      ErrorInfo(if bodyMessage != "" then bodyMessage else "Bad request",
                if bodyMessage != "" then bodyMessage else InvalidDataMessage)
    else if status == 401 then ErrorInfo("Unauthorized", SessionExpiredMessage)
    else if status == 403 then ErrorInfo("Forbidden", ForbiddenMessage)
    else if status == 404 then ErrorInfo("Not found", NotFoundMessage)
    else if status == 500 then ErrorInfo("Internal server error", ServerErrorMessage)
    else
      ContainsInfix("Error del servidor (", IntToString(status), "). Por favor, intenta nuevamente.");
      ErrorInfo("HTTP " + IntToString(status), OtherStatusMessage(status))
  }

  /** `getErrorMessage`: HTTP failures by status, other failures by whichever message they carry. */
  function GetErrorMessage(e: RawError): (r: ErrorInfo)
    ensures e.OtherFailure? && e.innerMessage != "" ==>
              r == ErrorInfo(e.innerMessage, GetUserFriendlyMessage(e.innerMessage))
    ensures e.HttpFailure? ==> r == HandleHttpError(e.status, e.bodyMessage)
    ensures e.OtherFailure? && e.innerMessage == "" ==> r.userFriendlyMessage == UnexpectedMessage
    ensures e.OtherFailure? && e.innerMessage == "" && e.message != "" ==> r.message == e.message
    ensures e.OtherFailure? && e.innerMessage == "" && e.message == "" ==> r.message == "Unknown error"
  {
    match e
    case HttpFailure(status, body) => HandleHttpError(status, body)
    case OtherFailure(inner, msg) =>
      if inner != "" then ErrorInfo(inner, GetUserFriendlyMessage(inner))
      else if msg != "" then ErrorInfo(msg, UnexpectedMessage)
      else ErrorInfo("Unknown error", UnexpectedMessage)
  }

  /** The sentence a store puts into its `error` state: never blank, so the banner always has text. */
  function FriendlyMessage(e: RawError): (r: string)
    ensures r != ""
  {
    if e.OtherFailure? && e.innerMessage != "" then
      var m := FirstMatch(MessageTable, ToLower(e.innerMessage));
      assert m.Some? ==> MessageTable[m.value].1 != "";
      GetErrorMessage(e).userFriendlyMessage
    else
      GetErrorMessage(e).userFriendlyMessage
  }

  /**
    `isUnauthorizedError`: an HTTP 401. Among all failures these are exactly
    the HTTP ones the mapper turns into `Unauthorized` with the
    expired-session sentence.
  */
  function IsUnauthorizedError(e: RawError): (b: bool)
    ensures b <==> e.HttpFailure? && GetErrorMessage(e) == ErrorInfo("Unauthorized", SessionExpiredMessage)
    ensures b ==> FriendlyMessage(e) == SessionExpiredMessage
  {
    e.HttpFailure? && e.status == 401
  }

  /**
    `isNetworkError`: status 0, a request that never reached the server.
    These are exactly the HTTP failures the mapper turns into `Network error`
    with the no-connection sentence, and never an unauthorized one.
  */
  function IsNetworkError(e: RawError): (b: bool)
    ensures b <==> e.HttpFailure? && GetErrorMessage(e) == ErrorInfo("Network error", NetworkMessage)
    ensures b ==> FriendlyMessage(e) == NetworkMessage && !IsUnauthorizedError(e)
  {
    e.HttpFailure? && e.status == 0
  }
}
