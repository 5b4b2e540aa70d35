# Admin front-end of the XI Semana de Ingeniería, modelled in Dafny

This project models the logic of a React administration front-end for an
event-registration service. The front-end has these parts:

- an API client that normalises replies and errors;
- a login screen;
- a three-view application shell;
- a QR check-in scanner built on a camera hook;
- the attendance dashboard;
- an event editor and a participant editor;
- the toast notification centre;
- the realtime polling and WebSocket hooks;
- four report serialisers: a CSV summary, an Excel workbook, a printable PDF table and a daily trend chart.

How the source maps to Dafny:

- A component or hook whose state changes becomes a `class`. Its fields are that state, and each handler is a method whose `ensures` states the whole new state.
- An `async` handler is split in two. `Begin…` runs up to the request. `Complete…` takes the request's outcome, a `Result<Json>`, as a parameter.
- Pure computations become functions with lemmas about them.
- JavaScript semantics the source relies on are written out in the `Json` and `JsText` modules:
  - truthiness;
  - `||`;
  - property reads that throw a `TypeError` on `null`;
  - `String(v)`;
  - `indexOf`/`includes`, `trim`;
  - decimal text.
- `localStorage` is the `Session.Store` class.
- These are parameters:
  - `JSON.parse`, a function that yields `None` where it throws;
  - date formatting and date ordering;
  - the answers of `confirm`, of the camera and of the network.
- Timers are explicit pending actions that fire when the caller says so.

## Model

| member | source | states |
|---|---|---|
| Api.Request | src/services/api.js:11-63 | `Content-Type` defaults to JSON, and a caller's header overrides it. `Authorization: Bearer <token>` is present exactly when a token is stored. Every other caller header is kept. A rejected fetch rethrows its error. A reply succeeds iff its status is 2xx, and the value is the settled, normalised body. |
| Api.BodyDataCases | src/services/api.js:28-46 | An empty body is `{}`. A JSON body is taken as parsed. Any other non-HTML text becomes `{message: text}`. |
| Api.HtmlPageMessage | src/services/api.js:35-43 | An HTML page that is not JSON becomes an object whose only key is `message`. Status 500 gets the "Error interno del servidor (…)" wording; any other status gets "Error <status>: <text>". |
| Api.HtmlErrorTextIsCapture | src/services/api.js:37-38 | The extracted text is the first one-line `<pre>` capture. Failing that, it is the first `<title>` capture. "Error del servidor" is used only when neither tag matches. |
| Api.OkReplyPassesThrough | src/services/api.js:58 | A 2xx reply returns its data unchanged, whatever it contains. |
| Api.NonOkReplyThrows | src/services/api.js:49-56 | A non-2xx reply always throws. For non-null data the message is `message`, else `error`, else "Error <status>: <statusText>", and the error carries the status and the data. |
| Api.HtmlErrorPageThrowsItsMessage | src/services/api.js:35-56 | A non-2xx HTML error page throws with exactly the message synthesised from the page. |
| Api.BuscarPathKeepsId | src/services/api.js:92-94 | The lookup path is the fixed prefix followed by the id, verbatim. |
| Api.MarcarPathDeterminesArguments | src/services/api.js:77-82 | For ids without `?`, the attendance path determines both the id and the collection. |
| Api.UnescapedPathsCollide | src/services/api.js:77-82 | Because nothing is escaped, every id containing `?coleccion=` gives the same request as a different, shorter id with the rest moved into the collection. |
| Login.AcceptIff | src/components/Login.js:58-74 | The reply is accepted iff it has truthy `success`, `token` and `usuario`. Otherwise it fails with `message` or "Credenciales inválidas", or with "Datos de sesión incompletos" when the token or user is missing. |
| Login.ClassifyShowsNoMarkup | src/components/Login.js:80-97 | The rules are applied first-match in source order. Apart from a status-500 error, whose message is shown verbatim, an HTML message never reaches the screen; it is replaced by a generic text. |
| Login.LoginForm.constructor | src/components/Login.js:6-11 | The demo credentials are filled in, nothing is loading and there is no error. |
| Login.LoginForm.HandleInputChange | src/components/Login.js:35-43 | Only the named field changes, and any error is cleared. |
| Login.LoginForm.BeginSubmit | src/components/Login.js:45-58 | A blank (whitespace-only) field sets the "complete all fields" error and makes no call. Otherwise the login call is made with loading on. |
| Login.LoginForm.CompleteSubmit | src/components/Login.js:58-102 | Only an accepted reply stores the token and the user's JSON and signals success. A failure stores nothing and shows the classified message. Loading ends either way. |
| Login.LoginForm.Mount | src/components/Login.js:14-33 | The probe runs iff a token is stored. A failed probe removes both the token and the user. |
| App.Render | src/App.js:45-103 | The spinner shows while loading. After that, `dashboard` and `scanner` show their screens, and every other view, unknown ones included, shows the login. |
| App.AppShell.constructor | src/App.js:10-11 | The view is `login` and loading is on. |
| App.AppShell.CheckAuthentication | src/App.js:14-24 | The view becomes `dashboard` iff a token is stored, and loading ends in both cases. |
| App.AppShell.HandleLoginSuccess | src/App.js:26-28 | The view becomes `dashboard`. |
| App.AppShell.HandleLogout | src/App.js:30-34 | The token and user are removed and the view becomes `login`. |
| App.AppShell.HandleScannerClick | src/App.js:36-38 | The view becomes `scanner`. |
| App.AppShell.HandleDashboardClick | src/App.js:40-42 | The view becomes `dashboard`. |
| App.StartUp | src/App.js:14-24 | From a fresh shell, the screen after the check is the dashboard iff a token is stored, else the login. |
| Session.Store.Clear | src/App.js:30-34 | Both stored entries are gone. |
| Session.UserName | src/components/Dashboard.js:28-38 | The name is `usuario.nombre`, else `usuario.usuario`. A missing or unparsable stored user keeps the current name. |
| UseScanner.StartFailure | src/hooks/useScanner.js:19-58 | An empty camera list fails with "No se encontraron cámaras disponibles". A camera-list or start error fails with its message. Otherwise the start succeeds. |
| UseScanner.ScannerHook.constructor | src/hooks/useScanner.js:5-9 | The hook starts not scanning, with no data, no error and status `inactive`. |
| UseScanner.ScannerHook.BeginStart | src/hooks/useScanner.js:13-17 | The error is cleared and the status becomes `starting`. |
| UseScanner.ScannerHook.CompleteStart | src/hooks/useScanner.js:19-58 | A successful start uses the first camera and ends scanning with status `active`. A failure records its message with status `error`, and scanning stays off. |
| UseScanner.ScannerHook.OnFrame | src/hooks/useScanner.js:29-47 | A decoded text is recorded verbatim, the status becomes `scanned` and the device is stopped and cleared. A frame that fails to decode changes nothing. |
| UseScanner.ScannerHook.StopScanner | src/hooks/useScanner.js:62-75 | The stop is a no-op unless a device exists and scanning is on. Otherwise scanning ends with status `inactive`, and a failing stop sets the fixed error. |
| UseScanner.ScannerHook.ResetScanner | src/hooks/useScanner.js:77-81 | Data and error are cleared and the status is `inactive`. `isScanning` is untouched. |
| Scanner.LookupOutcome | src/components/Scanner.js:85-95 | A reply with `success` and an inscription yields that inscription. Anything else is an error. |
| Scanner.LookupFailureMessage | src/components/Scanner.js:93-101 | A failed lookup shows "❌ Error: " followed by the reply's message or "Usuario no encontrado". |
| Scanner.ConfirmOutcome | src/components/Scanner.js:117-137 | A reply with truthy `success` confirms. Otherwise the error carries the reply's message. |
| Scanner.WithField | src/components/Scanner.js:129 | The spread keeps every other field of the participant and sets only the one given. |
| Scanner.DefaultEvent | src/components/Scanner.js:64-77 | A non-empty activity list selects the first `coleccion`. An empty list selects nothing, and a failed load is an error. |
| Scanner.CameraStatusText | src/components/Scanner.js:175-184 | Each known status has its own text, and an unknown status shows the inactive text. |
| Scanner.ScannerScreen.constructor | src/components/Scanner.js:9-26 | There is no participant and no event, the default prompt shows, and nothing is loading or pending. |
| Scanner.ScannerScreen.CargarInfoUsuario | src/components/Scanner.js:52-62 | The shown name is read back from the stored user. |
| Scanner.ScannerScreen.CargarEventoPorDefecto | src/components/Scanner.js:64-77 | The first activity is selected when there is one. Otherwise the selection is kept. |
| Scanner.ScannerScreen.OnScannedDataEffect | src/components/Scanner.js:35-40 | Every new non-empty scanned text is looked up verbatim as the id, with the participant cleared and loading on. |
| Scanner.ScannerScreen.CompleteLookup | src/components/Scanner.js:85-108 | A found inscription is shown. A failure keeps no participant, shows the error and schedules a reset after 3000 ms. Loading ends either way. |
| Scanner.ScannerScreen.BeginConfirm | src/components/Scanner.js:111-121 | Nothing happens without both a participant and an event. Otherwise the call is `marcarAsistencia(_id, event, true)` with loading on. |
| Scanner.ScannerScreen.CompleteConfirm | src/components/Scanner.js:123-146 | On success only `asistencia` changes, to true, and a reset is scheduled after 2000 ms. On failure the participant is kept and the error shown. Loading ends either way. |
| Scanner.ScannerScreen.OnScanErrorEffect | src/components/Scanner.js:43-50 | A new non-empty scan error becomes the error message "Error: <text>". |
| Scanner.ScannerScreen.ResetScannerState | src/components/Scanner.js:166-173 | The hook is reset, the participant cleared and the default prompt restored. |
| Scanner.ScannerScreen.HandleStartScanner | src/components/Scanner.js:149-155 | The hook begins a start and the scanning prompt shows. |
| Scanner.ScannerScreen.HandleStopScanner | src/components/Scanner.js:157-160 | Whatever the stop did, the screen ends in the reset state. |
| Scanner.ScannerScreen.HandleCancel | src/components/Scanner.js:162-164 | The screen ends in the reset state. |
| Scanner.ScannerScreen.FireTimer | src/components/Scanner.js:103-105 | A pending reset runs and is removed from the pending list. |
| Resumen.Row | src/components/ResumenCompleto.js:80-96 | One row per inscription, with the event's fields first. `Asistencia` is "Sí" for truthy attendance, else "No". |
| Resumen.EventRows | src/components/ResumenCompleto.js:80-97 | An event gives one row per inscription, in order. |
| Resumen.RowsAppend | src/components/ResumenCompleto.js:79-98 | The rows of two event lists are the rows of each, concatenated. |
| Resumen.RowsShape | src/components/ResumenCompleto.js:79-98 | There is one row per (event, inscription) pair, event order then inscription order, and every row has the same number of cells. |
| Resumen.CellText | src/components/ResumenCompleto.js:105 | A falsy value (`0`, `false`, `''`, null, missing) is the empty text. Any other value is `String(value)`. |
| Resumen.QuoteField | src/components/ResumenCompleto.js:105 | The cell is wrapped in quotes with every inner quote doubled, as in rule 7 of section 2 of RFC 4180. |
| Resumen.CsvContent | src/components/ResumenCompleto.js:100-108 | No rows give the empty text. Otherwise the result is the unquoted header line followed by one `\n`-separated line per row. |
| Resumen.ExportToCsv | src/components/ResumenCompleto.js:76-108 | A missing summary produces nothing. Otherwise the result is the CSV of its events' rows. |
| Resumen.CsvRoundTrip | src/components/ResumenCompleto.js:79-108 | Reading the body back with the quoted-field reader `ParseLines` (every field quoted, lines separated by `\n`) gives every row's cell texts, one field per header; the unquoted header line is stated only as text. |
| Resumen.CellRoundTrip | src/components/ResumenCompleto.js:105 | Un-escaping a quoted cell gives back the cell's text. |
| Resumen.ExportOutcome | src/components/ResumenCompleto.js:60-71 | A window opens only for a reply with `success` and a `downloadUrl`. Every other reply or failure alerts. |
| Resumen.ResumenPanel.constructor | src/components/ResumenCompleto.js:7-10 | No summary, loading on, no error, not exporting. |
| Resumen.ResumenPanel.CompleteLoad | src/components/ResumenCompleto.js:16-31 | A reply with `success` supplies the summary. Otherwise the error is its message, and loading ends. |
| Resumen.ResumenPanel.LoadAsWritten | src/components/ResumenCompleto.js:19 | The load always ends in a TypeError because the client method does not exist. |
| Resumen.ResumenPanel.BeginExport | src/components/ResumenCompleto.js:59 | Exporting starts and nothing else changes. |
| Resumen.ResumenPanel.CompleteExport | src/components/ResumenCompleto.js:60-73 | The reply decides the effect, and exporting ends. |
| Resumen.ResumenPanel.ExportAsWritten | src/components/ResumenCompleto.js:57-74 | Every export alerts an error and no window ever opens. |
| ReportData.Step | src/components/ExportButton.jsx:9-18 | An indexed segment reads `current[name][i]` and a plain one `current[key]`. A missing step gives the default. |
| ReportData.WalkFromDefault | src/components/ExportButton.jsx:8-19 | Once the walk holds the default text, it keeps it to the end. |
| ReportData.WalkIsLookup | src/components/ExportButton.jsx:8-19 | The walk equals the plain path lookup when that lookup finds a value, and the default otherwise. |
| ReportData.CountWith | src/components/ExportButton.jsx:138-143 | The count of inscriptions whose `asistencia` is exactly that value, at most the total. |
| ReportData.CountOther | src/components/ExportButton.jsx:138-143 | The count of inscriptions whose attendance is neither true, false nor missing. |
| ReportData.CountsPartition | src/components/ExportButton.jsx:138-143 | The true, false, missing and other counts sum to the total. |
| ReportData.NestedPaths | src/components/ExportButton.jsx:44-55 | The twelve nested columns and their paths. |
| ReportData.NestedValues | src/components/ExportButton.jsx:44-55 | One value per nested column, each the walk of its path. |
| ExportButton.AttendanceLabel | src/components/ExportButton.jsx:76 | `true` is "Sí", `false` is "No" and anything else "Sin confirmar". |
| ExportButton.ExcelRow | src/components/ExportButton.jsx:28-78 | One cell per column, as many as column widths. `No.` is position + 1, and `Estado` defaults to "Pendiente". |
| ExportButton.StatsSumIff | src/components/ExportButton.jsx:138-143 | The three sheet counts sum to the total iff every attendance is true, false or missing. |
| ExportButton.FileName | src/components/ExportButton.jsx:164-165 | `reporte_completo_<name or "evento">_<date>.xlsx`. |
| ExportButton.ExportToExcel | src/components/ExportButton.jsx:21-169 | Null or empty input produces no workbook. Otherwise there is one row per inscription in order, with the column widths, the counts and the file name. |
| ExportButton.EnabledButtonExports | src/components/ExportButton.jsx:175 | An enabled button always produces a workbook; with a falsy `disabled` prop, the button is disabled exactly when the export would only alert. |
| PdfExport.StatusBadge | src/components/PDFExport.jsx:363-372 | true → success "Asistió", false → danger "No asistió", anything else → warning "Sin confirmar". |
| PdfExport.PdfRow | src/components/PDFExport.jsx:362-416 | The row starts with its 1-based number. It has one cell per header besides the status, the nested columns are walked with the "-" default, and the badge is the attendance's. |
| PdfExport.CountsOf | src/components/PDFExport.jsx:13-16 | Attended and not-attended count exact true and false. Unconfirmed is the rest. |
| PdfExport.SinConfirmarCounts | src/components/PDFExport.jsx:13-16 | The three counts always sum to the total, and unconfirmed counts exactly the others. |
| PdfExport.Rate | src/components/PDFExport.jsx:17 | Divides only when the total is positive, otherwise 0. |
| PdfExport.GeneratePdf | src/components/PDFExport.jsx:6-428 | Null or empty input alerts and opens nothing. Otherwise there are 31 headers and one numbered row per inscription, in order. |
| PdfExport.EnabledButtonExports | src/components/PDFExport.jsx:445 | An enabled button always produces a document; with a falsy `disabled` prop, the button is disabled exactly when the export would only alert. |
| TrendChart.CountInto | src/components/TrendChart.jsx:23-42 | Counting one inscription into the table of days is the grouping step, and the day→position index stays exact. |
| TrendChart.GroupByDate | src/components/TrendChart.jsx:20-43 | The loop builds exactly the grouping of all inscriptions. |
| TrendChart.AddRecordCounts | src/components/TrendChart.jsx:23-42 | One step keeps the days unique and 0 ≤ attended ≤ registered per day, and adds the record to the sums iff it is dated. |
| TrendChart.GroupedProperties | src/components/TrendChart.jsx:20-46 | Each day occurs once, 0 ≤ attended ≤ registered per day, the day counts sum to the number of dated records, and attended sums to the dated attended ones. |
| TrendChart.Insert | src/components/TrendChart.jsx:46-51 | Insertion keeps the same multiset of days. |
| TrendChart.SortByDate | src/components/TrendChart.jsx:46-51 | The sort is a permutation of the days. |
| TrendChart.InsertOrdered | src/components/TrendChart.jsx:46-51 | Inserting into an ordered list keeps it ordered. |
| TrendChart.SortByDateOrdered | src/components/TrendChart.jsx:46-51 | The sorted days are in ascending date order. |
| TrendChart.LastTen | src/components/TrendChart.jsx:52 | At most ten days, the last ones, in order. |
| TrendChart.ChartData | src/components/TrendChart.jsx:16-53 | Null or empty input gives no days. Otherwise the result is the last ten of the sorted grouping. |
| TrendChart.RoundedAverage | src/components/TrendChart.jsx:60 | The average is the total per day, rounded half up. |
| TrendChart.StatsOf | src/components/TrendChart.jsx:55-71 | No totals iff the chart is empty. Otherwise the totals are the sums over its days, and the daily average is their total per day rounded half up. |
| TrendChart.WellCountedSums | src/components/TrendChart.jsx:57-58 | Over days that each count no more attendees than inscriptions, the attended total never exceeds the registered total. |
| TrendChart.WellCountedPermutation | src/components/TrendChart.jsx:46-51 | Reordering the days, as the sort does, keeps every day well counted. |
| TrendChart.LastTenWellCounted | src/components/TrendChart.jsx:52 | Keeping the last ten days keeps every day well counted. |
| TrendChart.ChartStatsBounded | src/components/TrendChart.jsx:16-71 | The totals shown beside the chart never have more attendees than inscriptions. |
| Notifications.Without | src/components/NotificationSystem.jsx:9-11 | Exactly the entries with another id are kept. |
| Notifications.WithoutConcat | src/components/NotificationSystem.jsx:9-11 | Filtering works piecewise, so the kept entries stay in order. |
| Notifications.WithoutAbsent | src/components/NotificationSystem.jsx:9-11 | Removing an absent id changes nothing. |
| Notifications.WithoutIdempotent | src/components/NotificationSystem.jsx:9-11 | Removing twice is removing once. |
| Notifications.RemoveUndoesAdd | src/components/NotificationSystem.jsx:9-17 | Removing a freshly added notification by its id restores the list. |
| Notifications.NotificationCenter.constructor | src/components/NotificationSystem.jsx:6 | No notifications and no timers. |
| Notifications.NotificationCenter.Add | src/components/NotificationSystem.jsx:13-26 | Exactly one notification is appended, with defaults `info` and 5000. Its removal is scheduled iff the duration is positive, the id is returned, and the timer invariant is kept. |
| Notifications.NotificationCenter.Remove | src/components/NotificationSystem.jsx:9-11 | The list is filtered by the id and the timers stay. |
| Notifications.NotificationCenter.FireTimer | src/components/NotificationSystem.jsx:19-23 | A fired timer removes only its id, which was added with a positive duration. The timer invariant is kept. |
| Notifications.NotificationCenter.Mount | src/components/NotificationSystem.jsx:28-32 | The global handlers reach this component. |
| Notifications.NotificationCenter.Unmount | src/components/NotificationSystem.jsx:33-36 | The global handlers are gone. |
| Notifications.KindName | src/components/NotificationSystem.jsx:89-111 | Each helper's fixed type, and only `showInfo` uses the default type. |
| Notifications.Show | src/components/NotificationSystem.jsx:88-111 | With a handler installed, the helper adds with its fixed type and returns the id. Without one it does nothing and returns nothing. |
| Notifications.Hide | src/components/NotificationSystem.jsx:113-117 | With a handler installed, the id is removed. |
| Realtime.Bearer | src/hooks/useRealtimeUpdates.js:32 | "Bearer <token>", or "Bearer null" without a token. |
| Realtime.NewUpdates | src/hooks/useRealtimeUpdates.js:39 | Only a non-empty `updates` list (or string) counts, with its length. |
| Realtime.NoticeTextForms | src/hooks/useRealtimeUpdates.js:44-49 | "1 nueva actualización" for one update. For n > 1 it is "n nuevas actualizaciónes", exactly as the source builds it. |
| Realtime.NoticeCountReadsBack | src/hooks/useRealtimeUpdates.js:46 | The notice starts with the count in decimal, which reads back to n. |
| Realtime.RealtimePoller.constructor | src/hooks/useRealtimeUpdates.js:7-22 | The poller is mounted and visible, and polling runs iff enabled with a collection. |
| Realtime.RealtimePoller.OnVisibilityChange | src/hooks/useRealtimeUpdates.js:14-16 | Only visibility changes. |
| Realtime.RealtimePoller.SetProps | src/hooks/useRealtimeUpdates.js:58-70 | While mounted, polling runs iff enabled with a collection. |
| Realtime.RealtimePoller.Unmount | src/hooks/useRealtimeUpdates.js:65-69 | The interval is cleared, and the invariant (polling exactly while mounted, enabled and with a collection) still holds. |
| Realtime.RealtimePoller.BeginFetch | src/hooks/useRealtimeUpdates.js:24-34 | No request when disabled, without a collection or hidden. Otherwise the request asks for changes since the last update, with the bearer header. While the interval runs, a tick requests exactly when the page is visible. |
| Realtime.RealtimePoller.CompleteFetch | src/hooks/useRealtimeUpdates.js:36-55 | `lastUpdate` advances and updates are delivered only for an ok reply with new updates. A notice is produced only when a notifier exists. |
| Realtime.Backoff | src/hooks/useRealtimeUpdates.js:120 | The delay is min(1000·2^k, 30000). |
| Realtime.BackoffDoubles | src/hooks/useRealtimeUpdates.js:120 | Each further attempt doubles the delay up to the cap. |
| Realtime.BackoffMonotone | src/hooks/useRealtimeUpdates.js:120 | The delay never decreases with the attempt count. |
| Realtime.ScheduledDelays | src/hooks/useRealtimeUpdates.js:119-120 | The five possible delays are 1, 2, 4, 8 and 16 seconds, so the cap is never reached. |
| Realtime.SocketClient.constructor | src/hooks/useRealtimeUpdates.js:86-92 | Mounting connects when enabled with a URL. |
| Realtime.SocketClient.Connect | src/hooks/useRealtimeUpdates.js:86-92 | A new socket replaces the old one unless the client is disabled or has no URL. |
| Realtime.SocketClient.OnOpen | src/hooks/useRealtimeUpdates.js:93-100 | An open socket resets the attempt counter to 0. |
| Realtime.SocketClient.OnMessage | src/hooks/useRealtimeUpdates.js:102-109 | Only a message that parses is delivered. |
| Realtime.SocketClient.OnClose | src/hooks/useRealtimeUpdates.js:115-128 | While enabled with fewer than five attempts, a reconnect is scheduled after `Backoff(k)` and k increments. It ignores whether the hook is still mounted. |
| Realtime.SocketClient.OnCloseMounted | src/hooks/useRealtimeUpdates.js:115-128 | The same, but nothing is scheduled after unmount. |
| Realtime.SocketClient.FireReconnect | src/hooks/useRealtimeUpdates.js:123-126 | The pending reconnect fires and connects again. |
| Realtime.SocketClient.Send | src/hooks/useRealtimeUpdates.js:147-151 | Data goes out only on an open socket. |
| Realtime.SocketClient.Unmount | src/hooks/useRealtimeUpdates.js:137-144 | A connecting or open socket is closing; a socket already closing or closed, or none, is left as it is. The pending reconnect is cleared. |
| Realtime.ReconnectAfterUnmount | src/hooks/useRealtimeUpdates.js:115-144 | As written, a client unmounted while its socket is connecting or open ends up connecting a new socket. |
| Realtime.NoReconnectAfterUnmount | src/hooks/useRealtimeUpdates.js:115-144 | With the mount guard, a client unmounted while its socket is connecting or open stays closed with nothing pending. |
| Dashboard.AuthErrorIff | src/components/Dashboard.js:56-58 | The logout rule fires iff the message contains "token" or "auth". |
| Dashboard.ActivityList | src/components/Dashboard.js:45 | A list is given only by a successful reply, and it is that reply's `actividades`. |
| Dashboard.ActivityListSelects | src/components/Dashboard.js:43-50 | A list is stored exactly when the first element's `coleccion` is then read, which either selects a value or throws on a null element. Otherwise the same reply selects no default event. |
| Dashboard.MarkTextsDistinguish | src/components/Dashboard.js:109-117 | The prompt and the alert tell "marked" from "unmarked" apart. |
| Dashboard.DashboardScreen.constructor | src/components/Dashboard.js:10-20 | The name is "Administrador". Lists are empty, no event is selected, nothing is loading and there is no error. |
| Dashboard.DashboardScreen.Mount | src/components/Dashboard.js:22-26 | The user name is read back and the activities are requested with loading on. |
| Dashboard.DashboardScreen.CompleteActivities | src/components/Dashboard.js:44-61 | A non-empty list is stored and its first `coleccion` selected, and an empty one leaves both. A failure sets the error, and an auth failure logs out. Loading ends. |
| Dashboard.DashboardScreen.BeginLoad | src/components/Dashboard.js:64-70 | A falsy activity starts nothing. Otherwise both requests start with their flags on. |
| Dashboard.DashboardScreen.CompleteLoad | src/components/Dashboard.js:76-95 | On success the list is the payload or `[]`, and the stats change only when present. On failure the list is kept and the error set, and an auth failure logs out. Both flags end false. |
| Dashboard.DashboardScreen.HandleEventChange | src/components/Dashboard.js:98-106 | The event is selected. An empty one clears the inscriptions and stats; another is loaded. |
| Dashboard.DashboardScreen.OnSelectedEventEffect | src/components/Dashboard.js:136-141 | A changed, truthy selection is loaded once. |
| Dashboard.DashboardScreen.BeginMark | src/components/Dashboard.js:108-114 | A declined confirmation makes no call. An accepted one calls with the negated flag. |
| Dashboard.DashboardScreen.CompleteMark | src/components/Dashboard.js:114-131 | Success alerts and, for a truthy activity, reloads the list with the error cleared; a falsy activity changes nothing more. Failure alerts the error and leaves the screen state alone, and an auth failure logs out. |
| EventManager.BlankForm | src/components/EventManager.jsx:19-27 | The seven fields are empty, except `estado`, which is "activo". |
| EventManager.EditForm | src/components/EventManager.jsx:67-75 | Each field is copied from the event, with `''` for a falsy field and "activo" for a falsy `estado`. |
| EventManager.EditFormExtremes | src/components/EventManager.jsx:65-77 | A fully set event is copied, and an event with nothing set gives the blank form. |
| EventManager.NewStatus | src/components/EventManager.jsx:141 | "inactivo" iff the status is "activo"; anything else, missing included, gives "activo". |
| EventManager.NewStatusToggle | src/components/EventManager.jsx:141 | Toggling twice restores either known status. |
| EventManager.SuccessNotice | src/components/EventManager.jsx:52-54 | A success notice exists iff a notifier is installed. |
| EventManager.EventForm.constructor | src/components/EventManager.jsx:17-27 | The form is blank and closed, and `editingId` is null. |
| EventManager.EventForm.HandleInputChange | src/components/EventManager.jsx:29-31 | Only the named field changes. |
| EventManager.EventForm.ResetForm | src/components/EventManager.jsx:33-45 | The form is blank and closed, and `editingId` is null. |
| EventManager.EventForm.OpenCreate | src/components/EventManager.jsx:175 | The form opens as it is. |
| EventManager.EventForm.HandleEdit | src/components/EventManager.jsx:65-77 | `editingId` is the event's `coleccion`, and the form is the event's copy, open. |
| EventManager.EventForm.Save | src/components/EventManager.jsx:47-94 | It dispatches to update iff `editingId` is truthy, else to create. Then the form resets and the caller refreshes. |
| EventManager.EventForm.HandleDuplicate | src/components/EventManager.jsx:96-117 | Notifies success and refreshes. |
| EventManager.EventForm.HandleDelete | src/components/EventManager.jsx:119-137 | A declined delete does nothing. An accepted one notifies and refreshes. |
| EventManager.EventForm.HandleToggleStatus | src/components/EventManager.jsx:139-154 | The new status is the toggle of the current one, announced, with a refresh. |
| ParticipantModal.BlankEdit | src/components/ParticipantModal.jsx:19-24 | The four editable fields are empty. |
| ParticipantModal.EditedFrom | src/components/ParticipantModal.jsx:28-33 | Each editable field is copied from the participant, or `''` when falsy. |
| ParticipantModal.EditedFromFixedPoint | src/components/ParticipantModal.jsx:26-35 | Initialising from the buffer changes nothing, and a participant with nothing set gives the blank buffer. |
| ParticipantModal.FormatDate | src/components/ParticipantModal.jsx:61-71 | A falsy date is "No disponible"; any other is formatted. |
| ParticipantModal.ParticipantEditor.constructor | src/components/ParticipantModal.jsx:17-35 | Not editing, and the buffer is initialised from the participant when there is one. |
| ParticipantModal.ParticipantEditor.SetParticipant | src/components/ParticipantModal.jsx:26-35 | A new participant reference reinitialises the buffer, even when its contents are unchanged; the same reference or no participant keeps it. The edit mode is kept. |
| ParticipantModal.ParticipantEditor.StartEditing | src/components/ParticipantModal.jsx:115 | Edit mode starts and the buffer is kept. |
| ParticipantModal.ParticipantEditor.HandleInputChange | src/components/ParticipantModal.jsx:39-44 | Only that field of the buffer changes. |
| ParticipantModal.ParticipantEditor.HandleSave | src/components/ParticipantModal.jsx:46-49 | The participant's id is sent with the current buffer, and edit mode ends. |
| ParticipantModal.ParticipantEditor.HandleCancel | src/components/ParticipantModal.jsx:51-59 | The buffer is the initialisation from the participant, and edit mode ends. |
| ParticipantModal.ParticipantEditor.ToggleAttendance | src/components/ParticipantModal.jsx:104 | The request is the negation of the current attendance. |
| ParticipantModal.EditThenCancel | src/components/ParticipantModal.jsx:39-59 | Whatever was typed, cancel restores the buffer and no edit is pending. |
| ParticipantModal.EditThenRerender | src/components/ParticipantModal.jsx:26-44 | A re-render with a new object of the same contents discards what was typed, while edit mode stays on. |

## Left out

- Network, storage and browser I/O are inputs or outcomes: `fetch`, `localStorage` (the `Session.Store` class), `window.open`/`document.write`, `Blob` downloads, `alert` and `confirm` (a boolean answer).
- `JSON.parse` and `JSON.stringify` are not modelled. The parser is a parameter, and the user's JSON is stored as a value that reads back as itself.
- Date formatting (`toLocaleDateString`) and the `new Date(label)` ordering of the trend chart are parameters. The sort is an insertion sort by that rank, which is stable like `Array.prototype.sort`.
- Floating point is not modelled: attendance percentages, `toFixed`, and the chart's attendance rate. `PdfExport.Rate` is a Dafny `real`, and the average is rounded in integers.
- Timers are pending actions, and the async handlers are split in two. React's render order, overlapping requests and stale responses are not modelled.
- Only the latest reconnect timer of the WebSocket hook is tracked. A second timer scheduled while one is pending is not modelled.
- Notification ids (`Date.now() + Math.random()`) are supplied by the caller.
- Third-party libraries are abstract: `html5-qrcode` (the camera is a device whose answers are inputs), XLSX workbook and cell styling (ExportButton.jsx:81-168), recharts, and the HTML/CSS markup of the PDF page.
- An object with a `length` field is not taken for a list. The activity and update lists are read as arrays (or, for updates, strings).
- Object spread (`{...prev}`) is modelled for objects only; spreading a string or an array, which JavaScript copies by index, is not modelled.
- A summary whose events or inscriptions are not lists is not modelled.
- `handleExportPDF` (ResumenCompleto.js:34-55) is not part of this model. It calls `exportarResumenPDF`, which the API client does not define either.
- The data sent on a socket is kept as a value; its `JSON.stringify` text is not modelled.
- The `catch` branches of EventManager are not modelled. Its API calls are commented out, so nothing in the handlers can throw.
- A change of event loads the list twice, once from the handler and once from the selection effect. The model keeps both: the calls returned by `HandleEventChange` and those returned by `OnSelectedEventEffect`.
- The hook's "Error al detener el scanner" is set by a failing stop and then cleared at once by the screen's reset, so the screen never shows it. The model keeps this.
- The PDF's nested lookup renders a present `null` as the text "null", which the model keeps as `String(null)`.
- There is no two-factor login step, and the scanned QR text is used verbatim as the id. The code has neither, so the model follows the code.
- The dev proxy (`src/setupProxy.js`), `craco.config.js`, and the presentation-only components are not part of this model: Header, StatsCards, EventSelector, LoadingSpinner, BulkActions, UserInfoCard, InscripcionesTable, AttendanceChart, SearchFilter and ThemeToggle.
- The 31 cells of a PDF row are counted, but only their texts are modelled, not the HTML markup around them.

## Findings

| source | as written | input that shows it | evidently intended | confidence | as-written member | corrected member |
|---|---|---|---|---|---|---|
| src/components/ResumenCompleto.js:19 | calls `apiClient.getResumenCompletoEventos()`, which `APIClient` does not define, so the call throws a TypeError | any mount of the summary panel | the summary is loaded from the API | not executed | Resumen.ResumenPanel.LoadAsWritten | Resumen.ResumenPanel.CompleteLoad |
| src/components/ResumenCompleto.js:60 | calls `apiClient.exportarDatosCompletos()`, which `APIClient` does not define, so every export alerts "Error al exportar" | any click on the export button | a successful reply with `downloadUrl` opens it | not executed | Resumen.ResumenPanel.ExportAsWritten | Resumen.ResumenPanel.CompleteExport |
| src/hooks/useRealtimeUpdates.js:115-128 | the `onclose` handler schedules a reconnect even after the cleanup of lines 137-144 closed the socket | unmount while the socket is connecting or open, enabled, with fewer than five attempts: the close event schedules a reconnect that opens a socket nothing closes | no reconnect after unmount | not executed | Realtime.ReconnectAfterUnmount | Realtime.NoReconnectAfterUnmount |
