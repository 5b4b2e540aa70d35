/**
 * The login screen (src/components/Login.js): credential fields, the submit
 * handler that validates, calls the login endpoint, accepts the reply only
 * when it has `success`, `token` and `usuario`, stores the session and
 * classifies errors into one message; and the mount-time session probe.
 *
 * There is no second factor: the token is stored straight from the login reply.
 * The asynchronous submit is split at its `await`: `BeginSubmit` runs up to
 * the call, `CompleteSubmit` runs with its outcome.
 */
module Login {
  import opened JsText
  import opened Json
  import Api
  import opened Session

  datatype Credential = Usuario | Password

  const MissingFieldsMessage: string := "Por favor completa todos los campos"
  const InvalidCredentialsDefault: string := "Credenciales inválidas"
  const IncompleteSessionMessage: string := "Datos de sesión incompletos"
  const DefaultErrorMessage: string := "Error de conexión. Intenta nuevamente."
  const NoServerMessage: string :=
    "No se pudo conectar con el servidor. Verifica tu conexión a internet o contacta al administrador."
  const ConfigMessage: string := "Error de configuración del servidor. Contacta al administrador."
  const InternalDefaultMessage: string :=
    "Error interno del servidor. Por favor, contacta al administrador o intenta más tarde."
  const BadCredentialsMessage: string := "Credenciales inválidas. Verifica tu usuario y contraseña."
  const NotFoundMessage: string := "Servicio no encontrado. Contacta al administrador."
  const GenericServerMessage: string :=
    "Error del servidor. Por favor, intenta más tarde o contacta al administrador."

  /** Lines 58-67: what the login reply yields, the token text and the user to
      store, or the error thrown. Reading `data.success` of a null reply throws. */
  function Accept(reply: Result<Json>): Result<(string, Json)> {
    match reply
    case Fail(e) => Fail(e)
    case Ok(data) =>
      match Member(Some(data), "success")
      case Fail(e) => Fail(e)
      case Ok(success) =>
        if !Truthy(success) then
          Fail(Error(ErrorText(Or(Prop(data, "message"), Str(InvalidCredentialsDefault))), None, None))
        else if !Truthy(Prop(data, "token")) || !Truthy(Prop(data, "usuario")) then
          Fail(Error(IncompleteSessionMessage, None, None))
        else Ok((ToText(Prop(data, "token")), Prop(data, "usuario").value))
  }

  /** A reply is accepted exactly when it arrived, is not null, and has truthy
      `success`, `token` and `usuario`; a falsy `success` fails with the reply's
      message or the default, and a missing token or user with the fixed text. */
  lemma AcceptIff(reply: Result<Json>)
    ensures Accept(reply).Ok? <==>
      reply.Ok? && reply.value != JNull && Truthy(Prop(reply.value, "success"))
      && Truthy(Prop(reply.value, "token")) && Truthy(Prop(reply.value, "usuario"))
    ensures Accept(reply).Ok? ==>
      Accept(reply).value == (ToText(Prop(reply.value, "token")), Prop(reply.value, "usuario").value)
    ensures reply.Ok? && reply.value != JNull && !Truthy(Prop(reply.value, "success")) ==>
      Accept(reply).error.message ==
        (if Truthy(Prop(reply.value, "message")) then ToText(Prop(reply.value, "message"))
         else InvalidCredentialsDefault)
    ensures (reply.Ok? && reply.value != JNull && Truthy(Prop(reply.value, "success"))
             && !(Truthy(Prop(reply.value, "token")) && Truthy(Prop(reply.value, "usuario")))) ==>
      Accept(reply).error == Error(IncompleteSessionMessage, None, None)
  {
  }

  /** Lines 80-97: the first matching rule decides the message shown. */
  function Classify(e: Error): string {
    var m := e.message;
    if m != "" && Includes(m, "Failed to fetch") then NoServerMessage
    else if m != "" && Includes(m, "CORS") then ConfigMessage
    else if e.status == Some(500) then (if m != "" then m else InternalDefaultMessage)
    else if e.status == Some(401) || e.status == Some(403) then BadCredentialsMessage
    else if e.status == Some(404) then NotFoundMessage
    else if m != "" && !Includes(m, "<!DOCTYPE") && !Includes(m, "<html") then m
    else if m != "" then GenericServerMessage
    else DefaultErrorMessage
  }

  /** The fixed texts the classifier can show instead of the error's message. */
  const FixedMessages: set<string> := {NoServerMessage, ConfigMessage, InternalDefaultMessage,
    BadCredentialsMessage, NotFoundMessage, GenericServerMessage, DefaultErrorMessage}

  /** Some message is always shown. Apart from a status-500 error, the error's own
      message is shown only when it carries no HTML markup; otherwise one of the
      fixed texts is. */
  lemma ClassifyShowsNoMarkup(e: Error)
    ensures Classify(e) != ""
    ensures Classify(e) in FixedMessages || Classify(e) == e.message
    ensures (e.status != Some(500) && Classify(e) == e.message && e.message !in FixedMessages) ==>
      !Includes(e.message, "<!DOCTYPE") && !Includes(e.message, "<html")
  {
  }

  class LoginForm {
    var usuario: string
    var password: string
    var loading: bool
    var error: string

    /** Lines 6-11: the demo credentials are filled in. */
    constructor ()
      ensures usuario == "organizadorDemo" && password == "org123"
      ensures !loading && error == ""
    {
      usuario := "organizadorDemo";
      password := "org123";
      loading := false;
      error := "";
    }

    /** Lines 35-43: one field changes, and any error is cleared. */
    method HandleInputChange(field: Credential, value: string)
      modifies this
      ensures field == Usuario ==> usuario == value && password == old(password)
      ensures field == Password ==> password == value && usuario == old(usuario)
      ensures loading == old(loading) && error == ""
    {
      if field == Usuario {
        usuario := value;
      } else {
        password := value;
      }
      if error != "" {
        error := "";
      }
    }

    /** Lines 45-58 up to the call: blank fields stop here with a message;
        otherwise loading starts and the login call is issued. */
    method BeginSubmit() returns (call: Option<Api.Call>)
      modifies this
      ensures usuario == old(usuario) && password == old(password)
      ensures Trim(usuario) == "" || Trim(password) == "" ==>
        call == None && error == MissingFieldsMessage && loading == old(loading)
      ensures Trim(usuario) != "" && Trim(password) != "" ==>
        call == Some(Api.Login(map["usuario" := JStr(usuario), "password" := JStr(password)]))
        && loading && error == ""
    {
      if Trim(usuario) == "" || Trim(password) == "" {
        error := MissingFieldsMessage;
        call := None;
        return;
      }
      loading := true;
      error := "";
      call := Some(Api.Login(map["usuario" := JStr(usuario), "password" := JStr(password)]));
    }

    /** Lines 58-102 after the call: an accepted reply stores the token and the
        user and signals success; anything else stores nothing and shows the
        classified error. Loading ends either way. */
    method CompleteSubmit(reply: Result<Json>, store: Store) returns (loggedIn: bool)
      modifies this, store
      ensures !loading && usuario == old(usuario) && password == old(password)
      ensures loggedIn <==> Accept(reply).Ok?
      ensures loggedIn ==>
        store.token == Some(Accept(reply).value.0)
        && store.usuario == Some(Serialized(Accept(reply).value.1))
        && error == old(error)
      ensures !loggedIn ==>
        store.token == old(store.token) && store.usuario == old(store.usuario)
        && error == Classify(Accept(reply).error)
    {
      var outcome := Accept(reply);
      match outcome {
        case Ok((token, user)) =>
          store.token := Some(token);
          store.usuario := Some(Serialized(user));
          loggedIn := true;
        case Fail(e) =>
          error := Classify(e);
          loggedIn := false;
      }
      loading := false;
    }

    /** Lines 14-33: with a stored token the session is probed by fetching the
        activities; success signals login, failure removes token and user.
        Without a token nothing happens. */
    method Mount(store: Store, probe: Result<Json>) returns (probed: bool, signalled: bool)
      modifies store
      ensures probed <==> Api.HasToken(old(store.token))
      ensures signalled <==> probed && probe.Ok?
      ensures probed && probe.Fail? ==> store.token == None && store.usuario == None
      ensures !(probed && probe.Fail?) ==>
        store.token == old(store.token) && store.usuario == old(store.usuario)
    {
      probed := Api.HasToken(store.token);
      signalled := false;
      if probed {
        if probe.Ok? {
          signalled := true;
        } else {
          store.Clear();
        }
      }
    }
  }
}
