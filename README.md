# Yapekuna front end — a Dafny model

Yapekuna is a small digital-wallet web client. A user registers with a name and a
nine-digit phone number and logs in with the phone number. The login stores the
user's id in the browser's local storage. The dashboard shows the balance and
sends transfers. The transfer-history page merges outgoing and incoming transfers
into one list, newest first. The promotions page lists store promotions, shows
one in a dialog and pays for it. A navigation bar logs out. All of it talks to
back-end micro-services through one API module. That module turns some HTTP
status codes into fixed Spanish messages and passes every other failure on.

This project models, in Dafny:

- The API module (`Api`). Each call is a pure function from the transport's
  outcome (`HttpOutcome`: a reply, an HTTP error with status and error tag, or a
  network error) to what the call returns or throws (`Call`). Several calls
  return a hard-coded answer before the request code. These are modelled as
  written. The request code below the early return is modelled next to each one
  as a separate `…Request` function, so its status classification is proved too.
- The form field rules (`Register`, `Login`) over a small model of the anchored
  regular expressions they use (`Patterns`).
- The history merge and sort (`History`). `SortDesc` is a reference stable sort,
  newest date first. An in-place insertion sort on an array is proved equal to
  it. Any sequence that is sorted and keeps each date's relative order is proved
  to be that same sequence.
- Each screen as a class whose fields are the screen's state variables
  (`TransferenciasScreen`, `RegisterScreen`, `LoginScreen`, `DashboardScreen`,
  `PromocionesScreen`). Each event handler is a method. Its `ensures` state the
  whole new state and what stays unchanged.
- Local storage (`Session.LocalStorage`) as a class over a string map, and the
  navigation bar's logout (`NavBar`).

Dates (`fecha`) are integer keys such as 20240927, which order like the ISO
dates the pages use. Amounts are unbounded integers.

Some behaviour of the code is easy to miss, and the model keeps it as written:

- Logout removes the key `userId`, but the session id is stored under `id`. So
  logging out leaves the session in place (`NavBar.SessionSurvivesLogout`).
- The login call returns `{id: 1}` before making any request. So its "no user
  with that phone" message (status 400) can never appear
  (`Api.LoginClassifierUnreachable`).
- The API module rethrows unclassified transport errors as they are. It does
  not turn them into one failure vocabulary (`Api.Rethrow`).
- A successful transfer closes the dialog but does not clear the form
  (`Dashboard.DashboardScreen.FinishTransfer`).
- The dashboard's two sibling fetches each clear the shared `loading` flag on
  their own (`Dashboard.DashboardScreen.FetchSaldo`,
  `Dashboard.DashboardScreen.FetchNombre`).
- The dashboard imports `GetPersonaNombre`, which the API module does not
  define. Calling it throws inside the name fetch, so with a stored session the
  dashboard shows only an error and never its transfer dialog
  (`Dashboard.MountWithSession`).

## Model

| member | source | states |
|---|---|---|
| Common.NumberText | yapekuna/src/app/auth/login/page.tsx:31 | The stored text of an id is its decimal digits without leading zeros, after a `-` for a negative id, and reads back (`DigitsValue`) as the id. |
| Common.RenderPrecedence | yapekuna/src/app/dashboard/page.tsx:101-117 | The spinner shows exactly when loading. The error text shows exactly when not loading and the error is a non-empty string, and it is that string. The content shows otherwise. |
| Patterns.Matches | yapekuna/src/app/auth/register/page.tsx:17-21 | An anchored `[class]+` pattern matches exactly the non-empty strings of that class. `[class]{n}` matches exactly the strings of length n in that class. |
| Patterns.RunLengthCoversAll | yapekuna/src/app/auth/login/page.tsx:15 | The prefix scan covers the whole string exactly when every character is in the class. |
| Session.LocalStorage.GetItem | yapekuna/src/app/dashboard/page.tsx:29 | Reading a key gives its stored value, or null when the key is absent. |
| Session.LocalStorage.SetItem | yapekuna/src/app/auth/login/page.tsx:31 | Writing a key replaces that key's value and changes no other key. |
| Session.LocalStorage.RemoveItem | yapekuna/src/app/utils/NavBar.tsx:13 | Removing a key deletes exactly that key. |
| Api.Thrown.Status | yapekuna/src/app/auth/register/page.tsx:34 | `error.response?.status` is present exactly for a rethrown transport error that has a response, and is then that response's status. |
| Api.Rethrow | yapekuna/src/app/service/api.tsx:45-47 | A rethrown transport error keeps its message. Its status is the HTTP status when there was a response, and absent on a network error. |
| Api.AuthRegister | yapekuna/src/app/service/api.tsx:13-23 | The call returns exactly when the request succeeded, with the reply's id. Status 409 throws the fixed duplicate-phone message. Every other failure is rethrown unchanged. |
| Api.AuthLogin | yapekuna/src/app/service/api.tsx:26-27 | Login always returns id 1, whatever the back end would answer. |
| Api.AuthLoginRequest | yapekuna/src/app/service/api.tsx:28-36 | The unreachable request code returns the reply's id on success, throws the unknown-phone message on 400, and rethrows anything else. |
| Api.LoginClassifierUnreachable | yapekuna/src/app/service/api.tsx:26-36 | A 400 would be classified by the request code, but the login as written still returns id 1. |
| Api.GetSaldo | yapekuna/src/app/service/api.tsx:40-48 | A missing or empty id yields the object `{saldo: 0}` without a request. With an id, success yields the bare number and failure is rethrown. |
| Api.GetSaldoWithoutIdMakesNoRequest | yapekuna/src/app/service/api.tsx:40-41 | Without an id the result does not depend on the transport. It also differs in shape from a real zero balance. |
| Api.Transferencia | yapekuna/src/app/service/api.tsx:53-55 | A transfer always returns status 200. |
| Api.TransferenciaRequest | yapekuna/src/app/service/api.tsx:57-68 | The unreachable request code classifies 404 as an unknown user and 401 as insufficient balance, and rethrows the rest. |
| Api.GetDestinatarios | yapekuna/src/app/service/api.tsx:74-78 | The outgoing list is the two fixed records, whatever the id, each with a positive amount. |
| Api.GetRemitentes | yapekuna/src/app/service/api.tsx:89-93 | The incoming list is the two fixed records, whatever the id, each with a positive amount. |
| Api.ListRequest | yapekuna/src/app/service/api.tsx:80-85 | A list request returns the reply on success and rethrows every failure unclassified. |
| Api.RequestPath | yapekuna/src/app/service/api.tsx:81 | The request path is exactly the client path for the given id followed by `/destinatarios`. |
| Api.RemitentesRequestsDestinatariosPath | yapekuna/src/app/service/api.tsx:96 | The incoming-list request asks for the outgoing path, not a `/remitentes` path. |
| Api.GetPromociones | yapekuna/src/app/service/api.tsx:106-110 | The promotion list is the two fixed promotions. |
| Api.GetPromocion | yapekuna/src/app/service/api.tsx:121-122 | The promotion detail is the same fixed record for every id, and it has no id field. |
| Api.PagarPromocion | yapekuna/src/app/service/api.tsx:133-134 | Paying always returns the object with code `PROMO123`. |
| Api.PagarPromocionRequest | yapekuna/src/app/service/api.tsx:135-156 | The unreachable request code returns the bare code on success. It maps (401, no balance), (401, out of date), (404, no store) and (404, no promotion) to their messages, and rethrows every other failure. |
| Api.PaymentReplyShapesDiffer | yapekuna/src/app/service/api.tsx:134-137 | The mocked reply, an object, never equals what the request code would return for the same code, a bare string. |
| Api.GetPagos | yapekuna/src/app/service/api.tsx:162-166 | The payment list is the two fixed payments. |
| Api.GetPagosRequest | yapekuna/src/app/service/api.tsx:168-176 | The unreachable request code maps 404 to the no-payments message and rethrows the rest. |
| History.TagSent | yapekuna/src/app/historial/transferencias/page.tsx:36-41 | Each outgoing record becomes an entry with the recipient's name, the negated amount and the outgoing tag, in order. |
| History.TagReceived | yapekuna/src/app/historial/transferencias/page.tsx:42-46 | Each incoming record becomes an entry with the sender's name, the amount unchanged and the incoming tag, in order. |
| History.Merge | yapekuna/src/app/historial/transferencias/page.tsx:35-47 | The merged list holds all outgoing entries, then all incoming ones, field by field. |
| History.SortDescCorrect | yapekuna/src/app/historial/transferencias/page.tsx:50 | The reference sort is newest first and a permutation of its input, and keeps the relative order of entries with the same date. |
| History.StableSortUnique | yapekuna/src/app/historial/transferencias/page.tsx:50 | Two newest-first orderings that keep each date's entries in the same order are equal. |
| History.AnyStableSortIsSortDesc | yapekuna/src/app/historial/transferencias/page.tsx:50 | Every stable newest-first sort of a list gives exactly the reference sort's result. |
| History.TiesKeepSentFirst | yapekuna/src/app/historial/transferencias/page.tsx:35-50 | Among entries with the same date, the outgoing ones come first in their fetched order, then the incoming ones in their fetched order. |
| History.InsertLast | yapekuna/src/app/historial/transferencias/page.tsx:50 | One insertion step puts the next element into the sorted prefix exactly where the reference insertion does, and leaves the rest of the array alone. |
| History.SortByFechaDesc | yapekuna/src/app/historial/transferencias/page.tsx:50 | The in-place sort leaves the array equal to the reference sort of its old contents. |
| History.SortedCopy | yapekuna/src/app/historial/transferencias/page.tsx:50 | Sorting a fresh copy of the merged list yields the reference sort of it. |
| History.DisplayedAmount | yapekuna/src/app/historial/transferencias/page.tsx:100 | A minus sign shows exactly for outgoing entries, followed by the absolute amount. |
| History.DisplayedAmountOfRecords | yapekuna/src/app/historial/transferencias/page.tsx:36-100 | An outgoing record shows as minus its amount. An incoming record shows its amount without a sign. |
| History.MockHistoryOrder | yapekuna/src/app/historial/transferencias/page.tsx:30-52 | For any id, the lists the two fetches return appear as Maria −300 and Mikel +200 (28 Sep), then Juan −500 (27 Sep), then Michael +400 (26 Sep). |
| History.TransferenciasScreen.constructor | yapekuna/src/app/historial/transferencias/page.tsx:17-20 | The page starts with an empty list, loading, no error and no user. |
| History.TransferenciasScreen.FetchTransferencias | yapekuna/src/app/historial/transferencias/page.tsx:23-58 | Without a stored id the list becomes empty. If either fetch throws, the fixed error is set and the list is kept. Otherwise the list is the sorted merge. In every case loading ends. |
| History.TransferenciasScreen.View | yapekuna/src/app/historial/transferencias/page.tsx:63-79 | The history shows only when the page is not loading and has no error. |
| History.FetchedHistoryProperties | yapekuna/src/app/historial/transferencias/page.tsx:35-52 | The stored history has every fetched record exactly once and is newest first. |
| Register.NombreValid | yapekuna/src/app/auth/register/page.tsx:15-18 | A name is accepted exactly when it is non-empty and made only of ASCII letters and spaces. |
| Register.TelefonoValid | yapekuna/src/app/auth/register/page.tsx:19-23 | A phone is accepted exactly when it has nine characters, all ASCII digits. |
| Register.NombreExamples | yapekuna/src/app/auth/register/page.tsx:17 | An accented name is rejected, an all-space name is accepted, and the empty name is rejected. |
| Register.ErrorMessage | yapekuna/src/app/auth/register/page.tsx:33-43 | Status 409 shows the duplicate-phone message and 500 the server message. Anything else, including a thrown error without a response, shows the connection message. |
| Register.DuplicatePhoneNeverShown | yapekuna/src/app/auth/register/page.tsx:33-43 | The API module replaces a 409 with an error that has no status, so the screen never shows its duplicate-phone text and shows the connection message instead. |
| Register.RegisterScreen.constructor | yapekuna/src/app/auth/register/page.tsx:27-28 | The form starts with no message, not loading and no navigation. |
| Register.RegisterScreen.SubmitDisabled | yapekuna/src/app/auth/register/page.tsx:116 | The submit button is disabled exactly while loading. |
| Register.RegisterScreen.OnSubmit | yapekuna/src/app/auth/register/page.tsx:56-61 | Submitting clears the message and turns loading on. |
| Register.RegisterScreen.OnError | yapekuna/src/app/auth/register/page.tsx:33-43 | A failure sets the classified message and leaves loading on. |
| Register.RegisterScreen.OnSuccess | yapekuna/src/app/auth/register/page.tsx:44-47 | Success clears the message and navigates to the login page. |
| Register.RegisterScreen.Submit | yapekuna/src/app/auth/register/page.tsx:50-61 | A disabled or invalid submission changes nothing. A valid one navigates to login on success or shows the classified message, and loading never turns back off. |
| Login.TelefonoValid | yapekuna/src/app/auth/login/page.tsx:12-17 | A phone is accepted exactly when it is nine ASCII digits. |
| Login.SamePhoneRuleAsRegister | yapekuna/src/app/auth/login/page.tsx:15 | The login rule, written as `{9}`, accepts the same phones as the register rule, written as `+` plus a length test. |
| Login.TrailingNewlineRejected | yapekuna/src/app/auth/login/page.tsx:15 | A phone followed by a newline is rejected, and so is the empty phone. |
| Login.LoginScreen.constructor | yapekuna/src/app/auth/login/page.tsx:20-21 | The form starts with no message and no navigation. |
| Login.LoginScreen.HandleLogin | yapekuna/src/app/auth/login/page.tsx:28-36 | A returned id is stored as text under `id` and the page goes to the dashboard. A thrown error shows its message and leaves storage alone. |
| Login.LoginScreen.Submit | yapekuna/src/app/auth/login/page.tsx:23-37 | An invalid phone changes nothing. A valid one stores `"1"` under `id` and goes to the dashboard. |
| Dashboard.DashboardScreen.constructor | yapekuna/src/app/dashboard/page.tsx:12-24 | The dashboard starts loading, with zero balance, a closed dialog, an empty form and no errors. |
| Dashboard.DashboardScreen.FetchSaldo | yapekuna/src/app/dashboard/page.tsx:27-41 | Without an id nothing but loading changes. With an id, success sets the balance and failure sets the fixed error. Loading ends either way. |
| Dashboard.DashboardScreen.FetchNombre | yapekuna/src/app/dashboard/page.tsx:42-56 | Without an id nothing but loading changes. With an id, the fetched name is set or the fixed error is set. Loading ends either way. |
| Dashboard.DashboardScreen.OpenDialog | yapekuna/src/app/dashboard/page.tsx:62-64 | Opening the dialog changes nothing else. |
| Dashboard.DashboardScreen.CloseDialog | yapekuna/src/app/dashboard/page.tsx:66-74 | Closing the dialog resets the form and clears the transfer error. |
| Dashboard.DashboardScreen.TransferChange | yapekuna/src/app/dashboard/page.tsx:76-83 | Typing into one field replaces that field only. The amount takes its numeric value. |
| Dashboard.DashboardScreen.BeginTransfer | yapekuna/src/app/dashboard/page.tsx:87-88 | Starting a transfer sets the busy flag and clears the transfer error. |
| Dashboard.DashboardScreen.FinishTransfer | yapekuna/src/app/dashboard/page.tsx:89-98 | Without a user the not-authenticated message shows. Success closes the dialog and keeps the form. A failure shows its message. The busy flag ends. |
| Dashboard.DashboardScreen.SubmitTransfer | yapekuna/src/app/dashboard/page.tsx:86-99 | With a user, the transfer call is made and always closes the dialog without an error. Without one no call is made and the not-authenticated message shows. |
| Dashboard.DashboardScreen.TransferButtonDisabled | yapekuna/src/app/dashboard/page.tsx:222 | The transfer button is disabled exactly while a transfer is in flight. |
| Dashboard.MountWithSession | yapekuna/src/app/dashboard/page.tsx:42-60 | With a stored session, and the name call throwing because it is not defined, the dashboard ends on an error in either settling order: the name error, or the balance error when that fetch failed and settled last. |
| Dashboard.DashboardScreen.View | yapekuna/src/app/dashboard/page.tsx:101-117 | The dashboard body shows only when not loading and without an error. |
| Promociones.PromocionesScreen.constructor | yapekuna/src/app/promociones/page.tsx:8-14 | The page starts loading with no promotions, no selection, no error and no dialogs. |
| Promociones.PromocionesScreen.FetchPromociones | yapekuna/src/app/promociones/page.tsx:17-26 | The list is replaced by the fetched one, or the fixed list error is set. Loading ends either way. |
| Promociones.PromocionesScreen.SelectPromocion | yapekuna/src/app/promociones/page.tsx:31-38 | The fetched detail becomes the selection, or the fixed detail error is set. |
| Promociones.PromocionesScreen.BeginPayment | yapekuna/src/app/promociones/page.tsx:41 | Starting a payment sets the busy flag only. |
| Promociones.PromocionesScreen.FinishPayment | yapekuna/src/app/promociones/page.tsx:42-53 | With a stored id, success opens the success dialog and a failure sets its message. Without one nothing happens. The busy flag ends. |
| Promociones.PromocionesScreen.PagarPromocion | yapekuna/src/app/promociones/page.tsx:40-54 | With a stored id, the id becomes the page's user and the payment always succeeds, even though the detail passes no promotion id. Without an id no call is made and nothing but the busy flag changes. |
| Promociones.PromocionesScreen.CloseDetail | yapekuna/src/app/promociones/page.tsx:112-154 | Closing the detail clears the selection only. |
| Promociones.PromocionesScreen.CloseSuccess | yapekuna/src/app/promociones/page.tsx:168 | Dismissing the success dialog clears the success flag only. |
| Promociones.PromocionesScreen.AcceptSuccess | yapekuna/src/app/promociones/page.tsx:179-182 | Accepting clears both the success flag and the selection. |
| Promociones.PromocionesScreen.DetailOpen | yapekuna/src/app/promociones/page.tsx:113 | The detail dialog is open exactly when a promotion is selected. |
| Promociones.PromocionesScreen.PayDisabled | yapekuna/src/app/promociones/page.tsx:158 | The pay button is disabled exactly while paying. |
| Promociones.PromocionesScreen.View | yapekuna/src/app/promociones/page.tsx:56-72 | The promotion grid shows only when not loading and without an error. |
| Promociones.InDialogErrorNeverVisible | yapekuna/src/app/promociones/page.tsx:138-142 | In every state the error line inside the detail dialog is hidden, because a truthy error makes the page render that error alone. |
| NavBar.LoggedOut | yapekuna/src/app/utils/NavBar.tsx:13 | After logout, storage holds every key but `userId`, each with its old value. |
| NavBar.Logout | yapekuna/src/app/utils/NavBar.tsx:12-15 | Logout removes `userId` from storage and navigates to `/login`. |
| NavBar.GoToDashboard | yapekuna/src/app/utils/NavBar.tsx:24-34 | The logo and the Dashboard button both navigate to `/dashboard`. |
| NavBar.SessionSurvivesLogout | yapekuna/src/app/utils/NavBar.tsx:13 | A stored session id survives logout unchanged, and logging out twice is the same as once. |
| NavBar.LogoutRouteDiffersFromLoginPage | yapekuna/src/app/utils/NavBar.tsx:14 | Logout sends the user to `/login`, which is not the login page's route `/auth/login`. |
| NavBar.LoginThenLogout | yapekuna/src/app/utils/NavBar.tsx:12-15 | After a valid login and then a logout, the stored session id is still `"1"`. |

## Left out

- Transport: axios, the base URLs and the JSON bodies are not modelled. Each request's outcome is a parameter (`HttpOutcome`). The error's message text is part of that parameter.
- Rendering: the markup, styling and Material UI components are left out. Only the choice between spinner, error text and content is modelled, along with the enabled state of buttons and dialogs.
- React scheduling: each handler and each settled fetch is one atomic method call, applied in some order. The interleaving of the dashboard's two sibling fetches is not modelled beyond that.
- `GetPersonaNombre`: the dashboard imports it (dashboard/page.tsx:6) but the API module does not define it, so the call at dashboard/page.tsx:47 throws. `FetchNombre` takes the settled call as a parameter. Its `Returned` branch describes a name function the code does not have. `MountWithSession` states what the code as written does.
- Number parsing: the amount field's `Number(value)` is not modelled. `TransferChange` receives the parsed number.
- Date parsing: `new Date(...)` and the comparator's subtraction are not modelled. Dates are integer keys, and a malformed date (NaN in the comparator) is not covered.
- Form library internals: Formik and yup are reduced to "submit runs only when every field rule holds". Touched state and per-field error texts are not modelled.
- The dashboard puts no bound on the transfer amount; the form sends whatever number was typed.
- The promotions page shows the price and the discount percentage, not a discounted price.
- The payments history page (`historial/pagos`) is context, not core. Its API call `GetPagos` is modelled.
- `console.error` logging is not modelled.
- History.Merge: the spread copies the back end's own fields (`nombre_destinatario`, `nombre_remitente`) into each entry. The model keeps only the five fields the page reads.
- Register.RegisterScreen.Submit: the form library's asynchronous validation and the mutation's pending state are one atomic step.
- Navigation is a recorded route string. Page changes and unmounting, with late results being ignored, are not modelled.
