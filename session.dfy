/**
 * The two `localStorage` entries the dashboard shares between components:
 * `token` and `usuario`. Login writes both, logout and a failed session probe
 * remove both, the API client reads the token, and the Dashboard and Scanner
 * screens read the user back to show a name.
 *
 * `usuario` is written as `JSON.stringify(data.usuario)`; reading it back with
 * `JSON.parse` yields the same JSON value, so such an entry is kept as the
 * value itself (`Serialized`). An entry put there by other means is `Raw` text.
 */
module Session {
  import opened Json
  import Api

  datatype Stored = Serialized(value: Json) | Raw(text: string)

  class Store {
    var token: Option<string>
    var usuario: Option<Stored>

    constructor (token: Option<string>, usuario: Option<Stored>)
      ensures this.token == token && this.usuario == usuario
    {
      this.token := token;
      this.usuario := usuario;
    }

    /** `removeItem('token')` and `removeItem('usuario')`. */
    method Clear()
      modifies this
      ensures token == None && usuario == None
    {
      token := None;
      usuario := None;
    }
  }

  /** `JSON.parse(localStorage.getItem('usuario'))` for a stored entry. */
  function ParseStored(s: Stored, parse: Api.Parser): Option<Json> {
    match s
    case Serialized(v) => Some(v)
    case Raw(t) => parse(t)
  }

  /** `cargarInfoUsuario` (Dashboard.js:28-38, Scanner.js:52-62): the name shown
      is `usuario.nombre || usuario.usuario`; a missing or empty entry, one that
      does not parse, or one that parses to null (the read throws and is caught)
      keeps the current name. */
  function UserName(stored: Option<Stored>, parse: Api.Parser, current: Value): (r: Value)
    ensures stored == None ==> r == current
    ensures stored.Some? && stored.value.Serialized? && stored.value.value != JNull ==>
      r == Or(Prop(stored.value.value, "nombre"), Prop(stored.value.value, "usuario"))
    ensures stored.Some? && stored.value.Raw? && parse(stored.value.text) == None ==> r == current
  {
    if stored == None || stored == Some(Raw("")) then current
    else match ParseStored(stored.value, parse)
      case None => current
      case Some(u) =>
        if u == JNull then current
        else Or(Prop(u, "nombre"), Prop(u, "usuario"))
  }
}
