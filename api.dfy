/**
 * The API client (`APIClient` in src/services/api.js): it attaches the stored
 * bearer token, turns the reply body into a value (tolerating empty bodies,
 * HTML error pages and plain text), and throws an error carrying the HTTP
 * status and the parsed body for every non-2xx reply. The endpoint helpers
 * build their paths by plain, unescaped string concatenation.
 *
 * `fetch` and `JSON.parse` are not modelled: the reply is an input, and the
 * parser is a parameter that yields `None` where `JSON.parse` throws.
 */
module Api {
  import opened JsText
  import opened Json

  /** An HTTP reply as `fetch` resolves it. */
  datatype Reply = Reply(status: nat, statusText: string, body: string)

  /** What `fetch` produced: a reply, or a rejection (network failure, CORS). */
  datatype Fetched = Received(reply: Reply) | Rejected(error: Error)

  /** `JSON.parse`: `None` where it throws. */
  type Parser = string -> Option<Json>

  /** `response.ok`. */
  predicate IsOk(status: int) {
    200 <= status <= 299
  }

  // ---------------------------------------------------------------------
  // The case-insensitive tag regexes /<pre>(.*?)<\/pre>/i and
  // /<title>(.*?)<\/title>/i: leftmost opening tag, then the nearest closing
  // tag on the same line (`.` does not match line terminators).

  /** The `i` flag's folding of ASCII letters. */
  function Fold(c: char): char {
    if 'A' <= c <= 'Z' then ((c as int) + 32) as char else c
  }

  /** `tag` occurs case-insensitively at position `i` of `s`. */
  predicate TagAt(s: string, tag: string, i: int) {
    0 <= i && i + |tag| <= |s| && forall k :: 0 <= k < |tag| ==> Fold(s[i + k]) == Fold(tag[k])
  }

  predicate IsLineTerminator(c: char) {
    c == '\n' || c == '\r' || c == '\U{2028}' || c == '\U{2029}'
  }

  /** No line terminator in `s[a..b]`. */
  predicate OneLine(s: string, a: int, b: int) {
    0 <= a <= b <= |s| && forall k :: a <= k < b ==> !IsLineTerminator(s[k])
  }

  /** The regex matches with the opening tag at `a` and the closing tag at `b`. */
  predicate MatchAt(s: string, open: string, close: string, a: int, b: int) {
    TagAt(s, open, a) && OneLine(s, a + |open|, b) && TagAt(s, close, b)
  }

  /** The nearest closing tag at or after `j` reachable without crossing a line end, or -1. */
  function CloseFrom(s: string, close: string, j: nat): (r: int)
    requires j <= |s|
    decreases |s| - j
    ensures r == -1 || (j <= r && TagAt(s, close, r) && OneLine(s, j, r))
    ensures r != -1 ==> forall k :: j <= k < r ==> !TagAt(s, close, k)
    ensures r == -1 ==> forall k :: OneLine(s, j, k) ==> !TagAt(s, close, k)
  {
    if TagAt(s, close, j) then j
    else if j == |s| || IsLineTerminator(s[j]) then -1
    else
      var r := CloseFrom(s, close, j + 1);
      assert forall k :: OneLine(s, j, k) && k > j ==> OneLine(s, j + 1, k);
      r
  }

  /** The regex's match searching from position `i`: the leftmost opening tag
      that has a closing tag on its line, and the nearest such closing tag. */
  function MatchFrom(s: string, open: string, close: string, i: nat): (r: Option<(int, int)>)
    requires |open| > 0 && i <= |s|
    decreases |s| - i
    ensures r.Some? ==> i <= r.value.0 && MatchAt(s, open, close, r.value.0, r.value.1)
    ensures r.Some? ==> forall a, b :: i <= a && MatchAt(s, open, close, a, b) ==>
      r.value.0 < a || (r.value.0 == a && r.value.1 <= b)
    ensures r.None? ==> forall a, b :: i <= a ==> !MatchAt(s, open, close, a, b)
  {
    if i + |open| > |s| then None
    else if TagAt(s, open, i) && CloseFrom(s, close, i + |open|) != -1 then
      Some((i, CloseFrom(s, close, i + |open|)))
    else MatchFrom(s, open, close, i + 1)
  }

  /** The first capture group of the regex, when it matches. */
  function Capture(s: string, open: string, close: string): Option<string>
    requires |open| > 0
  {
    match MatchFrom(s, open, close, 0)
    case None => None
    case Some((a, b)) => Some(s[a + |open|..b])
  }

  /** Lines 37-38: the text of the first `<pre>`, else of the `<title>`, else a fixed text. */
  function HtmlErrorText(text: string): string {
    match Capture(text, "<pre>", "</pre>")
    case Some(c) => c
    case None =>
      match Capture(text, "<title>", "</title>")
      case Some(c) => c
      case None => "Error del servidor"
  }

  /** Line 35: the body is taken for an HTML page. */
  predicate LooksLikeHtml(text: string) {
    (text != "" && "<!DOCTYPE" <= Trim(text)) || (text != "" && Includes(text, "<html"))
  }

  /** Lines 40-42: the message synthesised for an HTML error page. */
  function HtmlMessage(status: nat, errorText: string): string {
    if status == 500 then
      "Error interno del servidor (" + errorText + "). Por favor, contacta al administrador."
    else "Error " + NatToString(status) + ": " + errorText
  }

  /** An object with a single `message` field. */
  function MessageObject(m: string): Json {
    JObj(map["message" := JStr(m)])
  }

  /** Lines 28-47: the value `request` makes of a reply body. */
  function BodyData(status: nat, text: string, parse: Parser): Json {
    if text == "" then JObj(map[])
    else match parse(text)
      case Some(v) => v
      case None =>
        if LooksLikeHtml(text) then MessageObject(HtmlMessage(status, HtmlErrorText(text)))
        else MessageObject(if text != "" then text else "Error " + NatToString(status))
  }

  /** Line 51: `data.message || data.error || 'Error <status>: <statusText>'`,
      for data that is not null. */
  function FailureMessage(data: Json, status: nat, statusText: string): string {
    ErrorText(Or(Or(Prop(data, "message"), Prop(data, "error")),
                 Str("Error " + NatToString(status) + ": " + statusText)))
  }

  /** Lines 49-58: a 2xx reply returns its data; any other throws. Reading
      `data.message` throws a TypeError first when the data is null. */
  function Settle(status: nat, statusText: string, data: Json): Result<Json> {
    if IsOk(status) then Ok(data)
    else match Member(Some(data), "message")
      case Fail(e) => Fail(e)
      case Ok(_) => Fail(Error(FailureMessage(data, status, statusText), Some(status), Some(data)))
  }

  /** A token is stored (localStorage holds strings; the empty one is falsy). */
  predicate HasToken(token: Option<string>) {
    token.Some? && token.value != ""
  }

  /** `APIClient.request`: the headers sent with the request and what the call returns or throws. */
  method Request(token: Option<string>, callerHeaders: map<string, string>, fetched: Fetched, parse: Parser)
    returns (headers: map<string, string>, r: Result<Json>)
    ensures "Content-Type" in headers
    ensures headers["Content-Type"] ==
      if "Content-Type" in callerHeaders then callerHeaders["Content-Type"] else "application/json"
    ensures HasToken(token) ==> "Authorization" in headers && headers["Authorization"] == "Bearer " + token.value
    ensures !HasToken(token) ==> ("Authorization" in headers <==> "Authorization" in callerHeaders)
    ensures forall k :: k in headers <==>
      k == "Content-Type" || k in callerHeaders || (k == "Authorization" && HasToken(token))
    ensures forall k :: k in callerHeaders && !(k == "Authorization" && HasToken(token)) ==>
      headers[k] == callerHeaders[k]
    ensures fetched.Rejected? ==> r == Fail(fetched.error)
    ensures fetched.Received? ==>
      (r.Ok? <==> IsOk(fetched.reply.status))
      && r == Settle(fetched.reply.status, fetched.reply.statusText,
                     BodyData(fetched.reply.status, fetched.reply.body, parse))
  {
    headers := map["Content-Type" := "application/json"] + callerHeaders;
    if HasToken(token) {
      headers := headers["Authorization" := "Bearer " + token.value];
    }
    match fetched {
      case Rejected(e) =>
        r := Fail(e);
      case Received(reply) =>
        var data: Json;
        var text := reply.body;
        if text == "" {
          data := JObj(map[]);
        } else {
          var parsed := parse(text);
          if parsed.Some? {
            data := parsed.value;
          } else if LooksLikeHtml(text) {
            var errorText := HtmlErrorText(text);
            data := MessageObject(HtmlMessage(reply.status, errorText));
          } else {
            data := MessageObject(if text != "" then text else "Error " + NatToString(reply.status));
          }
        }
        if !IsOk(reply.status) {
          if data == JNull {
            r := Fail(TypeError("null", "message"));
          } else {
            var message := FailureMessage(data, reply.status, reply.statusText);
            r := Fail(Error(message, Some(reply.status), Some(data)));
          }
        } else {
          r := Ok(data);
        }
    }
  }

  // ---------------------------------------------------------------------
  // Properties of the body normalisation.

  /** An HTML error page that is not JSON becomes a `message` object whose text is
      the regex capture (or the fixed fallback), worded by whether the status is 500. */
  lemma HtmlPageMessage(status: nat, text: string, parse: Parser)
    requires text != "" && parse(text) == None && LooksLikeHtml(text)
    ensures var data := BodyData(status, text, parse);
      data.JObj? && data.fields.Keys == {"message"}
      && (status == 500 ==>
            data.fields["message"] ==
            JStr("Error interno del servidor (" + HtmlErrorText(text) + "). Por favor, contacta al administrador."))
      && (status != 500 ==>
            data.fields["message"] == JStr("Error " + NatToString(status) + ": " + HtmlErrorText(text)))
  {
  }

  /** An empty body is the empty object, JSON is taken as parsed, and any other
      text that is not an HTML page becomes a `message` object holding it. */
  lemma BodyDataCases(status: nat, text: string, parse: Parser)
    ensures text == "" ==> BodyData(status, text, parse) == JObj(map[])
    ensures text != "" && parse(text).Some? ==> BodyData(status, text, parse) == parse(text).value
    ensures text != "" && parse(text).None? && !LooksLikeHtml(text) ==>
      BodyData(status, text, parse) == JObj(map["message" := JStr(text)])
  {
  }

  /** The extracted text is a real capture of the `<pre>` or `<title>` regex, and
      the fixed fallback is used only when neither regex matches. */
  lemma HtmlErrorTextIsCapture(text: string)
    ensures (exists a, b :: MatchAt(text, "<pre>", "</pre>", a, b)) ==>
      exists a, b :: MatchAt(text, "<pre>", "</pre>", a, b) && HtmlErrorText(text) == text[a + 5..b]
    ensures ((forall a, b :: !MatchAt(text, "<pre>", "</pre>", a, b))
             && (forall a, b :: !MatchAt(text, "<title>", "</title>", a, b))) ==>
      HtmlErrorText(text) == "Error del servidor"
    ensures ((forall a, b :: !MatchAt(text, "<pre>", "</pre>", a, b))
             && (exists a, b :: MatchAt(text, "<title>", "</title>", a, b))) ==>
      exists a, b :: MatchAt(text, "<title>", "</title>", a, b) && HtmlErrorText(text) == text[a + 7..b]
  {
    var pre := MatchFrom(text, "<pre>", "</pre>", 0);
    var title := MatchFrom(text, "<title>", "</title>", 0);
    if pre.Some? {
      assert MatchAt(text, "<pre>", "</pre>", pre.value.0, pre.value.1);
    } else if title.Some? {
      assert MatchAt(text, "<title>", "</title>", title.value.0, title.value.1);
    }
  }

  /** A 2xx reply is returned unchanged, whatever it says (even `success: false`). */
  lemma OkReplyPassesThrough(status: nat, statusText: string, data: Json)
    requires IsOk(status)
    ensures Settle(status, statusText, data) == Ok(data)
  {
  }

  /** A non-2xx reply always throws; unless the body is null, the error carries the
      status, the data, and `data.message`, else `data.error`, else the status line. */
  lemma NonOkReplyThrows(status: nat, statusText: string, data: Json)
    requires !IsOk(status)
    ensures Settle(status, statusText, data).Fail?
    ensures data != JNull ==>
      var e := Settle(status, statusText, data).error;
      e.status == Some(status) && e.data == Some(data)
      && (Truthy(Prop(data, "message")) ==> e.message == ToText(Prop(data, "message")))
      && (!Truthy(Prop(data, "message")) && Truthy(Prop(data, "error")) ==> e.message == ToText(Prop(data, "error")))
      && (!Truthy(Prop(data, "message")) && !Truthy(Prop(data, "error")) ==>
            e.message == "Error " + NatToString(status) + ": " + statusText)
  {
  }

  /** A non-2xx HTML error page surfaces as an error whose message is the synthesised text. */
  lemma HtmlErrorPageThrowsItsMessage(status: nat, statusText: string, text: string, parse: Parser)
    requires !IsOk(status) && text != "" && parse(text) == None && LooksLikeHtml(text)
    ensures Settle(status, statusText, BodyData(status, text, parse))
      == Fail(Error(HtmlMessage(status, HtmlErrorText(text)), Some(status), Some(BodyData(status, text, parse))))
  {
    var m := HtmlMessage(status, HtmlErrorText(text));
    assert m != "" by {
      if status == 500 { assert m[0] == 'E'; } else { assert m[0] == 'E'; }
    }
  }

  // ---------------------------------------------------------------------
  // Endpoint helpers (lines 65-94).

  /** The request an endpoint helper issues; `fetch` defaults the verb to GET. */
  datatype Call = Call(verb: string, path: string, body: Value)

  const AsistenciaPrefix: string := "/organizador/asistencia/"
  const BuscarPrefix: string := "/organizador/buscar-inscripcion/"
  const ColeccionQuery: string := "?coleccion="

  function GetInscripciones(coleccion: string): Call {
    Call("GET", "/organizador/inscripciones" + ColeccionQuery + coleccion, None)
  }

  function GetStats(coleccion: string): Call {
    Call("GET", "/organizador/stats" + ColeccionQuery + coleccion, None)
  }

  function GetActividades(): Call {
    Call("GET", "/api/actividades/todas", None)
  }

  function MarcarAsistencia(id: string, coleccion: string, asistencia: bool): Call {
    Call("PUT", AsistenciaPrefix + id + ColeccionQuery + coleccion,
         Some(JObj(map["asistencia" := JBool(asistencia)])))
  }

  function Login(credentials: Record): Call {
    Call("POST", "/organizador/login", Some(JObj(credentials)))
  }

  function BuscarInscripcion(id: string): Call {
    Call("GET", BuscarPrefix + id, None)
  }

  /** The lookup path carries the scanned id verbatim after the fixed prefix. */
  lemma BuscarPathKeepsId(id: string)
    ensures BuscarPrefix <= BuscarInscripcion(id).path
    ensures BuscarInscripcion(id).path[|BuscarPrefix|..] == id
  {
  }

  /** Without a `?` in the id, the attendance path determines id and collection. */
  lemma MarcarPathDeterminesArguments(id1: string, c1: string, id2: string, c2: string, a: bool)
    requires '?' !in id1 && '?' !in id2
    requires MarcarAsistencia(id1, c1, a).path == MarcarAsistencia(id2, c2, a).path
    ensures id1 == id2 && c1 == c2
  {
    var p := MarcarAsistencia(id1, c1, a).path;
    var s1 := id1 + ColeccionQuery + c1;
    var s2 := id2 + ColeccionQuery + c2;
    assert s1 == p[|AsistenciaPrefix|..];
    assert s2 == p[|AsistenciaPrefix|..];
    FirstQuestionMark(id1, c1, s1);
    FirstQuestionMark(id2, c2, s1);
    assert id1 == s1[..|id1|];
    assert id2 == s1[..|id2|];
    assert c1 == s1[|id1| + |ColeccionQuery|..];
    assert c2 == s1[|id2| + |ColeccionQuery|..];
  }

  /** In `id + "?coleccion=" + c`, with no `?` in the id, the first `?` is right after the id. */
  lemma FirstQuestionMark(id: string, c: string, s: string)
    requires '?' !in id && s == id + ColeccionQuery + c
    ensures IndexOf(s, "?") == |id|
  {
    assert OccursAt(s, "?", |id|);
    forall j | 0 <= j < |id| ensures !OccursAt(s, "?", j) {
      assert s[j] == id[j];
    }
  }

  /** Because nothing is escaped, any id that contains `?coleccion=` yields
      the same request as the shorter id with the rest moved into the
      collection, for every collection and attendance value. */
  lemma UnescapedPathsCollide(id: string, mid: string, c: string, a: bool)
    ensures id + ColeccionQuery + mid != id
    ensures MarcarAsistencia(id + ColeccionQuery + mid, c, a) == MarcarAsistencia(id, mid + ColeccionQuery + c, a)
  {
  }
}
