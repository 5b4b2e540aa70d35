/**
 * The live-update hooks (src/hooks/useRealtimeUpdates.js).
 *
 * `useRealtimeUpdates` polls `/api/updates/<coleccion>` every ten seconds
 * while it is enabled, has a collection and the page is visible, and hands a
 * non-empty `updates` list to its caller with a notice. `useWebSocket` keeps
 * one socket, reconnecting with a capped exponential backoff at most five
 * times in a row, and sends only on an open socket.
 *
 * The clock, the fetch and the socket events are inputs of the operations;
 * a notice is returned when `window.showNotification` is installed (the
 * `notifier` argument) instead of being shown.
 */
module Realtime {
  import opened JsText
  import opened Json
  import Api

  /** The polling period (line 62). */
  const PollInterval: nat := 10000

  /** Reconnects are scheduled while fewer than five have been made since the
      last open (line 119); the delay starts at one second and is capped at
      thirty (line 120). */
  const MaxAttempts: nat := 5
  const BaseDelay: nat := 1000
  const MaxDelay: nat := 30000

  const ConnectedText: string := "Conectado en tiempo real"

  /** A `window.showNotification(text, kind, duration)` call. */
  datatype Notice = Notice(text: string, kind: string, duration: nat)

  /** The polling request: its URL and its `Authorization` header. */
  datatype UpdatesRequest = UpdatesRequest(url: string, authorization: string)

  /** Line 30: the URL asks for the changes since the last update. */
  function UpdatesUrl(coleccion: string, since: int): string {
    "/api/updates/" + coleccion + "?since=" + IntToString(since)
  }

  /** Line 32: `Bearer ${localStorage.getItem('token')}`; a missing token
      is written `null`. */
  function Bearer(token: Option<string>): (r: string)
    ensures token.Some? ==> r == "Bearer " + token.value
    ensures token.None? ==> r == "Bearer null"
  {
    "Bearer " + (if token.Some? then token.value else "null")
  }

  /** Line 39: `data.updates && data.updates.length > 0`, with the updates
      and their number. A `null` body throws on the property read, which the
      hook catches, so it gives nothing too. */
  function NewUpdates(data: Json): (r: Option<(Json, nat)>)
    ensures r.Some? ==> Prop(data, "updates") == Some(r.value.0) && r.value.1 > 0
    ensures r.Some? <==>
      (Prop(data, "updates").Some?
       && ((Prop(data, "updates").value.JArr? && |Prop(data, "updates").value.items| > 0)
           || (Prop(data, "updates").value.JStr? && |Prop(data, "updates").value.s| > 0)))
  {
    match Prop(data, "updates")
    case Some(JArr(items)) => if |items| > 0 then Some((JArr(items), |items|)) else None
    case Some(JStr(s)) => if |s| > 0 then Some((JStr(s), |s|)) else None
    case _ => None
  }

  /** Line 46: the notice text, pluralised word by word. */
  function NoticeText(n: nat): string {
    NatToString(n) + " nueva" + (if n > 1 then "s" else "") + " actualización" + (if n > 1 then "es" else "")
  }

  /** One update reads "1 nueva actualización"; more read "n nuevas
      actualizaciónes", the plural built by appending "es". */
  lemma NoticeTextForms(n: nat)
    ensures n == 1 ==> NoticeText(n) == "1 nueva actualización"
    ensures n > 1 ==> NoticeText(n) == NatToString(n) + " nuevas actualizaciónes"
  {
    if n == 1 {
      assert NatToString(1) == "1";
    }
  }

  /** The notice starts with the number of updates, in decimal, followed by a
      space: a reader gets the count back. */
  lemma NoticeCountReadsBack(n: nat)
    ensures
      var d := NatToString(n);
      |NoticeText(n)| > |d| && NoticeText(n)[..|d|] == d && NoticeText(n)[|d|] == ' '
      && DecimalValue(NoticeText(n)[..|d|]) == n
  {
    DecimalRoundTrip(n);
  }

  /** What the `fetch` of line 30 gives: a reply, or a rejection. */
  datatype Response = Response(status: nat, body: Option<Json>)

  class RealtimePoller {
    var coleccion: string
    var enabled: bool
    /** `isVisibleRef`: the page is not hidden. */
    var visible: bool
    /** `lastUpdateRef`: the time of the last delivered update. */
    var lastUpdate: int
    /** The live `setInterval`, by its period. */
    var polling: Option<nat>
    /** The hook's component is still mounted. */
    var mounted: bool

    /** Polling runs exactly while mounted and enabled with a collection. */
    predicate Valid()
      reads this
    {
      polling == (if mounted && enabled && coleccion != "" then Some(PollInterval) else None)
    }

    /** Lines 7-10 and the mount of the effects at lines 13-22 and 58-70. */
    constructor (coleccion: string, enabled: bool, now: int)
      ensures Valid() && mounted
      ensures this.coleccion == coleccion && this.enabled == enabled
      ensures visible && lastUpdate == now
    {
      mounted := true;
      this.coleccion := coleccion;
      this.enabled := enabled;
      visible := true;
      lastUpdate := now;
      polling := if enabled && coleccion != "" then Some(PollInterval) else None;
    }

    /** Lines 14-16: the `visibilitychange` listener. */
    method OnVisibilityChange(hidden: bool)
      modifies this
      ensures visible == !hidden
      ensures coleccion == old(coleccion) && enabled == old(enabled) && mounted == old(mounted)
      ensures lastUpdate == old(lastUpdate) && polling == old(polling)
    {
      visible := !hidden;
    }

    /** Lines 58-70 when `enabled` or `coleccion` change: the old interval is
        cleared and a new one of 10000 ms is started only while enabled with a
        collection. */
    method SetProps(coleccion': string, enabled': bool)
      requires mounted
      modifies this
      ensures Valid() && mounted
      ensures coleccion == coleccion' && enabled == enabled'
      ensures visible == old(visible) && lastUpdate == old(lastUpdate)
    {
      polling := None;
      coleccion := coleccion';
      enabled := enabled';
      if enabled && coleccion != "" {
        polling := Some(PollInterval);
      }
    }

    /** Lines 65-69 on unmount: the interval is cleared. */
    method Unmount()
      modifies this
      ensures Valid() && !mounted && polling == None
      ensures coleccion == old(coleccion) && enabled == old(enabled)
      ensures visible == old(visible) && lastUpdate == old(lastUpdate)
    {
      mounted := false;
      polling := None;
    }

    /** Lines 25-34: no request while disabled, without a collection or with
        the page hidden; otherwise the request for the changes since the last
        update, with the stored token. */
    method BeginFetch(token: Option<string>) returns (request: Option<UpdatesRequest>)
      ensures request.None? <==> !enabled || coleccion == "" || !visible
      ensures Valid() && polling.Some? ==> (request.Some? <==> visible)
      ensures request.Some? ==>
        request.value == UpdatesRequest(UpdatesUrl(coleccion, lastUpdate), Bearer(token))
    {
      if !enabled || coleccion == "" || !visible {
        return None;
      }
      request := Some(UpdatesRequest(UpdatesUrl(coleccion, lastUpdate), Bearer(token)));
    }

    /** Lines 36-55 once the request has settled (`None` when it was
        rejected): only an ok reply whose body has a non-empty `updates` list
        moves the last update to `now` and delivers the list, with a notice
        when a notifier is installed; everything else changes nothing. */
    method CompleteFetch(response: Option<Response>, now: int, notifier: bool)
      returns (delivered: Option<Json>, notice: Option<Notice>)
      modifies this
      ensures coleccion == old(coleccion) && enabled == old(enabled) && mounted == old(mounted)
      ensures visible == old(visible) && polling == old(polling)
      ensures delivered.Some? <==>
        response.Some? && Api.IsOk(response.value.status) && response.value.body.Some?
        && NewUpdates(response.value.body.value).Some?
      ensures delivered.Some? ==>
        var u := NewUpdates(response.value.body.value).value;
        delivered.value == u.0 && lastUpdate == now
        && (notice.Some? <==> notifier)
        && (notice.Some? ==> notice.value == Notice(NoticeText(u.1), "info", 3000))
      ensures delivered.None? ==> lastUpdate == old(lastUpdate) && notice == None
    {
      delivered, notice := None, None;
      if response.Some? && Api.IsOk(response.value.status) && response.value.body.Some? {
        var u := NewUpdates(response.value.body.value);
        if u.Some? {
          lastUpdate := now;
          delivered := Some(u.value.0);
          if notifier {
            notice := Some(Notice(NoticeText(u.value.1), "info", 3000));
          }
        }
      }
    }
  }

  function Pow2(k: nat): (r: nat)
    ensures r >= 1
  {
    if k == 0 then 1 else 2 * Pow2(k - 1)
  }

  /** Line 120: `Math.min(1000 * Math.pow(2, k), 30000)`. */
  function Backoff(k: nat): (r: nat)
    ensures BaseDelay <= r <= MaxDelay
    ensures r <= BaseDelay * Pow2(k)
  {
    if BaseDelay * Pow2(k) < MaxDelay then BaseDelay * Pow2(k) else MaxDelay
  }

  /** Each delay doubles the one before, until the cap. */
  lemma BackoffDoubles(k: nat)
    ensures Backoff(k + 1) == if 2 * Backoff(k) < MaxDelay then 2 * Backoff(k) else MaxDelay
  {
  }

  /** Delays never shrink as the attempts grow. */
  lemma {:induction false} BackoffMonotone(j: nat, k: nat)
    requires j <= k
    ensures Backoff(j) <= Backoff(k)
    decreases k - j
  {
    if j < k {
      BackoffDoubles(j);
      BackoffMonotone(j + 1, k);
    }
  }

  /** The five delays a socket can wait are 1, 2, 4, 8 and 16 seconds: the
      thirty-second cap is never reached. */
  lemma ScheduledDelays()
    ensures Backoff(0) == 1000 && Backoff(1) == 2000 && Backoff(2) == 4000
    ensures Backoff(3) == 8000 && Backoff(4) == 16000
    ensures forall k :: 0 <= k < MaxAttempts ==> Backoff(k) < MaxDelay
  {
    assert Pow2(4) == 16 by {
      assert Pow2(1) == 2 && Pow2(2) == 4 && Pow2(3) == 8;
    }
  }

  /** The socket's `readyState`, with `NoSocket` before one was created. */
  datatype SocketState = NoSocket | Connecting | Open | Closing | Closed

  class SocketClient {
    var url: string
    var enabled: bool
    /** `reconnectAttemptsRef`. */
    var attempts: nat
    var socket: SocketState
    /** `reconnectTimeoutRef`: a pending reconnect, by its delay. */
    var reconnect: Option<nat>
    /** Everything sent through the socket, in order. */
    var sent: seq<Json>
    /** The component is still mounted. */
    var mounted: bool

    /** At most five reconnects in a row; a pending reconnect follows a
        closed socket and waits the backoff of the attempts made before it. */
    predicate Valid()
      reads this
    {
      attempts <= MaxAttempts
      && (reconnect.Some? ==> 1 <= attempts && reconnect.value == Backoff(attempts - 1) && socket == Closed)
    }

    /** Lines 86-92 and 134-135: mounting connects; `created` says whether
        `new WebSocket(url)` succeeded (a failure is only logged). */
    constructor (url: string, enabled: bool, created: bool)
      ensures Valid() && mounted
      ensures this.url == url && this.enabled == enabled
      ensures attempts == 0 && reconnect == None && sent == []
      ensures socket == if enabled && url != "" && created then Connecting else NoSocket
    {
      this.url := url;
      this.enabled := enabled;
      attempts := 0;
      reconnect := None;
      sent := [];
      mounted := true;
      socket := if enabled && url != "" && created then Connecting else NoSocket;
    }

    /** Lines 86-92: a new socket replaces the old one, unless disabled, without
        a URL, or when creating it throws. */
    method Connect(created: bool)
      modifies this
      ensures socket == if enabled && url != "" && created then Connecting else old(socket)
      ensures url == old(url) && enabled == old(enabled) && attempts == old(attempts)
      ensures reconnect == old(reconnect) && sent == old(sent) && mounted == old(mounted)
    {
      if enabled && url != "" && created {
        socket := Connecting;
      }
    }

    /** Lines 93-100: an open socket resets the attempts, with a notice when a
        notifier is installed. */
    method OnOpen(notifier: bool) returns (notice: Option<Notice>)
      requires Valid() && socket == Connecting
      modifies this
      ensures Valid()
      ensures socket == Open && attempts == 0
      ensures notice == if notifier then Some(Notice(ConnectedText, "success", 2000)) else None
      ensures url == old(url) && enabled == old(enabled) && reconnect == old(reconnect)
      ensures sent == old(sent) && mounted == old(mounted)
    {
      socket := Open;
      attempts := 0;
      notice := if notifier then Some(Notice(ConnectedText, "success", 2000)) else None;
    }

    /** Lines 102-109: a message reaches `onMessage` only when it parses. */
    method OnMessage(data: string, parse: Api.Parser) returns (delivered: Option<Json>)
      ensures delivered.Some? <==> parse(data).Some?
      ensures delivered.Some? ==> delivered.value == parse(data).value
    {
      delivered := parse(data);
    }

    /** Lines 115-128 as written: while enabled and with fewer than five
        attempts, a reconnect is scheduled after the backoff of the attempts
        so far, and the attempts grow by one; with five it gives up. The
        component being unmounted is not looked at. */
    method OnClose()
      requires Valid()
      modifies this
      ensures Valid()
      ensures socket == Closed
      ensures enabled && old(attempts) < MaxAttempts ==>
        attempts == old(attempts) + 1 && reconnect == Some(Backoff(old(attempts)))
      ensures !(enabled && old(attempts) < MaxAttempts) ==>
        attempts == old(attempts) && reconnect == old(reconnect)
      ensures url == old(url) && enabled == old(enabled) && sent == old(sent) && mounted == old(mounted)
    {
      socket := Closed;
      if enabled && attempts < MaxAttempts {
        reconnect := Some(Backoff(attempts));
        attempts := attempts + 1;
      }
    }

    /** `OnClose` with the evidently intended guard: after unmount no
        reconnect is scheduled. */
    method OnCloseMounted()
      requires Valid() && (!mounted ==> reconnect == None)
      modifies this
      ensures Valid() && (!mounted ==> reconnect == None)
      ensures socket == Closed
      ensures mounted && enabled && old(attempts) < MaxAttempts ==>
        attempts == old(attempts) + 1 && reconnect == Some(Backoff(old(attempts)))
      ensures !(mounted && enabled && old(attempts) < MaxAttempts) ==>
        attempts == old(attempts) && reconnect == old(reconnect)
      ensures url == old(url) && enabled == old(enabled) && sent == old(sent) && mounted == old(mounted)
    {
      socket := Closed;
      if mounted && enabled && attempts < MaxAttempts {
        reconnect := Some(Backoff(attempts));
        attempts := attempts + 1;
      }
    }

    /** Lines 123-126: the pending reconnect fires and connects again. */
    method FireReconnect(created: bool)
      requires Valid() && reconnect.Some?
      modifies this
      ensures Valid() && reconnect == None
      ensures socket == if enabled && url != "" && created then Connecting else old(socket)
      ensures attempts == old(attempts) && sent == old(sent) && mounted == old(mounted)
      ensures url == old(url) && enabled == old(enabled)
    {
      reconnect := None;
      Connect(created);
    }

    /** Lines 147-151: data goes out only on an open socket. */
    method Send(data: Json)
      modifies this
      ensures sent == if old(socket) == Open then old(sent) + [data] else old(sent)
      ensures socket == old(socket) && attempts == old(attempts) && reconnect == old(reconnect)
      ensures url == old(url) && enabled == old(enabled) && mounted == old(mounted)
    {
      if socket == Open {
        sent := sent + [data];
      }
    }

    /** Lines 137-144: unmounting closes a connecting or open socket (its
        close event comes later; `close()` on a closing or closed socket does
        nothing) and clears the pending reconnect. */
    method Unmount()
      requires Valid()
      modifies this
      ensures Valid() && !mounted && reconnect == None
      ensures socket == if old(socket) == Connecting || old(socket) == Open then Closing else old(socket)
      ensures attempts == old(attempts) && sent == old(sent)
      ensures url == old(url) && enabled == old(enabled)
    {
      mounted := false;
      if socket == Connecting || socket == Open {
        socket := Closing;
      }
      reconnect := None;
    }
  }

  /** Unmounting while the socket is connecting or open: the close event
      that follows still schedules a reconnect when fewer than five attempts
      were made, and that reconnect opens a socket nothing will close. */
  method ReconnectAfterUnmount(c: SocketClient)
    requires c.Valid() && c.enabled && c.url != "" && c.attempts < MaxAttempts
    requires c.socket == Connecting || c.socket == Open
    modifies c
    ensures !c.mounted && c.socket == Connecting
  {
    c.Unmount();
    c.OnClose();
    c.FireReconnect(true);
  }

  /** With the guard, the close event after unmounting a connecting or open
      socket schedules nothing. */
  method NoReconnectAfterUnmount(c: SocketClient)
    requires c.Valid()
    requires c.socket == Connecting || c.socket == Open
    modifies c
    ensures !c.mounted && c.reconnect == None && c.socket == Closed
  {
    c.Unmount();
    c.OnCloseMounted();
  }
}
