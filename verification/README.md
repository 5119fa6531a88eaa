# MinhaVan admin console — a Dafny model of its sequential core

MinhaVan's web console is a React admin front end for a school-transport backend. This
project models the logic under its views and proves properties of that model:

- **Token-refresh gateway** (`src/utils/api.ts`). Every request gets the stored bearer
  credential. On a 401 the response interceptor does one of three things: it rejects, it
  parks the request on a FIFO queue while a refresh is in flight, or it becomes the single
  refresher. The module-level `isRefreshing` flag and `refreshSubscribers` queue are the
  fields of `Api.Gateway`. The two asynchronous events are its methods: a 401 arrives, and
  the refresh settles.
- **Older fetch gateway** (`src/auth/httpService.ts`). One refresh and at most one reissue
  per call, then a throw on any final status outside 2xx. Module `AuthHeader` holds what
  the two gateways share: the header map, the bearer `Authorization` header and the
  refresh payload.
- **Credential lifecycle** (`src/auth/AuthContext.tsx` and `src/auth/AuthContext.jsx`).
  Login and logout over the shared `localStorage`. The store is modelled as
  `Storage.LocalStorage`, a class whose field is a `map<string, string>`.
- **Page logic**:
  - drag-reordering and in-place renumbering of route markers;
  - the add/remove diff of a route's students;
  - the link/unlink decision for a route's driver;
  - form defaulting and update-or-create choices on the driver and route pages.

Network replies are parameters of the methods. The requests a page issues are returned as
values: constructors naming the endpoint, with their parameters. Module `Js` holds the
JavaScript value semantics the code relies on:

- `null`/`undefined` as `Option`, with `??` as `GetOr`;
- truthiness of strings and numbers;
- `${x}` of a possibly undefined string;
- `String.prototype.trim`.

## Model

| member | source | states |
|---|---|---|
| Js.Trim | src/pages/ConfigurarRotaMotorista.tsx:169 | `trim()` is the infix of the text left once white space is removed from both ends: what it drops is white space, it has no white space at either end, and it is "" exactly when the text is all white space |
| Js.TrimEmptyIffAllSpace | src/pages/ConfigurarRotaMotorista.tsx:169-170 | trimming leaves nothing iff every character is white space (what selects the "Motorista sem nome" fallback) |
| Storage.WithCredentials | src/utils/api.ts:80-81 | both credential keys hold the given values; every other key keeps its value |
| Storage.WithoutCredentials | src/utils/api.ts:88-89 | neither credential key remains, no key is added and every other key keeps its value; the tsx provider's logout leaves exactly this store |
| Storage.AfterLogin | src/auth/AuthContext.tsx:32-34 | an accepted response (truthy `accessToken`) writes both keys, an absent refresh credential as "undefined"; any other response writes nothing |
| Storage.LocalStorage.GetItem | src/utils/api.ts:40 | `getItem` is null exactly when the key is absent, the stored value otherwise |
| Storage.LocalStorage.SetItem | src/utils/api.ts:80 | the store afterwards is the old one with that key set |
| Storage.LocalStorage.RemoveItem | src/utils/api.ts:88 | the store afterwards is the old one without that key |
| Api.SetAuthorization | src/utils/api.ts:64 | the header becomes "Bearer " + token; id, `_retry` and every other header are unchanged |
| Api.AttachToken | src/utils/api.ts:38-47 | with a truthy stored token the request gets `Authorization: Bearer <token>`, otherwise its headers are untouched; other headers are kept |
| Api.TryRefreshToken | src/utils/api.ts:18-30 | null when the call threw or resolved without a payload, the payload otherwise |
| Api.Decide | src/utils/api.ts:56-68 | not Reject iff status 401, `_retry` unset and a truthy refresh credential; then Enqueue iff a refresh is in flight, otherwise start a refresh with the stored credential |
| Api.Reissue | src/utils/api.ts:13-16 | every waiter once, in queue order, with the same new bearer header; its id, `_retry` mark and every other header (key and value) unchanged |
| Api.ReissueAll | src/utils/api.ts:14 | the `forEach` loop yields exactly `Reissue` of the queue |
| Api.InterceptorKeepsRefreshedHeader | src/utils/api.ts:40-65 | a reissued request passing the request interceptor with the refreshed credential stored is left unchanged |
| Api.Gateway.constructor | src/utils/api.ts:6-7 | not refreshing, empty queue |
| Api.Gateway.InterceptRequest | src/utils/api.ts:38-47 | the outgoing request is `AttachToken` of the stored "token" |
| Api.Gateway.SubscribeTokenRefresh | src/utils/api.ts:9-11 | exactly one waiter appended at the end; nothing else changes |
| Api.Gateway.OnRefreshed | src/utils/api.ts:13-16 | returns `Reissue` of the old queue; the queue is then empty |
| Api.Gateway.OnResponseError | src/utils/api.ts:52-71 | follows `Decide`. Reject changes nothing; Enqueue appends the request while the flag stays up; StartRefresh marks `_retry`, raises the flag and suspends the request as the single refresher. Keeps `Valid` (flag up iff one refresher, which carries `_retry`) |
| Api.Gateway.OnRefreshSettled | src/utils/api.ts:73-94 | the flag drops whatever the outcome. With a payload: both keys are written, the queue is drained in order, and the refresher is reissued, all carrying "Bearer " + the stored token. Without one: both keys are removed, the refresher is rejected and the queue is left as is |
| Api.Gateway.ReceiveUnauthorizedBurst | src/utils/api.ts:56-71 | for a burst of fresh 401s, the first request becomes the only refresher and every later one queues behind it in arrival order |
| HttpService.VerbInit | src/auth/httpService.ts:73-98 | GET/DELETE carry no body or headers; POST/PUT carry a JSON content type and the serialised body |
| HttpService.SetAuthorization | src/auth/httpService.ts:30-48 | `headers.set` sets the header, keeps the others, the verb and the body |
| HttpService.WithStoredToken | src/auth/httpService.ts:26-30 | the bearer header is set iff a truthy token is stored, with exactly one key added and every other header kept; otherwise the request is unchanged |
| HttpService.TryRefreshToken | src/auth/httpService.ts:5-20 | null if the fetch threw, the response was not ok or carried no payload; the payload otherwise |
| HttpService.Finish | src/auth/httpService.ts:62-68 | an ok status returns the envelope, any other status throws an error carrying it, a fetch that threw propagates |
| HttpService.ReissueHeaderAsWritten | src/auth/httpService.ts:47-48 | the reissue header as written: "Bearer [object Object]" |
| HttpService.ReissueHeaderAsWrittenIsStale | src/auth/httpService.ts:44-48 | the header as written never carries the access credential just stored, whether present or "undefined" (unless that credential is literally "[object Object]") |
| HttpService.ReissueMatchesFreshCall | src/auth/httpService.ts:26-48 | the intended reissue header, "Bearer " + the access credential the refresh writes under "token", makes the reissue equal to the request a fresh call would send once the refreshed credentials are stored, whatever the store and the first request's credential were before |
| HttpService.HttpClient.FetchWithAuth | src/auth/httpService.ts:22-69 | first request with the stored token. A refresh only on a 401 with a truthy refresh credential, at most one refresh and one reissue. On success both keys are overwritten and the reissue carries the as-written header. On failure both keys are removed, a redirect to /login is requested and the 401 throws |
| HttpService.HttpClient.Send | src/auth/httpService.ts:73-98 | `get`/`post`/`put`/`del`: the first request is the verb's options with the stored token, and every request sent keeps the verb and the body. Without a refresh, storage is unchanged and there is no redirect. After a successful refresh, both credentials are written, the reissue carries the as-written header and the second reply decides. After a failed refresh, both credentials are removed, /login is requested and the call fails with 401. The refresh is sent the stored refresh credential |
| AuthContextTsx.LoginThenLogoutClearsCredentials | src/auth/AuthContext.tsx:33-45 | login followed by logout leaves neither key, whatever the response |
| AuthContextTsx.AuthProvider.constructor | src/auth/AuthContext.tsx:25-26 | the token state starts as the stored "token" or null; the user starts as `{}` |
| AuthContextTsx.AuthProvider.Login | src/auth/AuthContext.tsx:29-41 | an accepted response writes both keys, sets token and user and navigates to /dashboard; any other throws "Login inválido" with storage and state unchanged |
| AuthContextTsx.AuthProvider.Logout | src/auth/AuthContext.tsx:43-49 | both keys removed, token null, user `{}`, navigation to /login |
| AuthContextJsx.AfterLogout | src/auth/AuthContext.jsx:28-29 | logout removes only "token"; every other key, "refreshToken" included, is unchanged |
| AuthContextJsx.LoginThenLogoutKeepsRefreshToken | src/auth/AuthContext.jsx:17-29 | after an accepted login, logout leaves that login's refresh credential in storage |
| AuthContextJsx.AuthProvider.constructor | src/auth/AuthContext.jsx:8-11 | token starts as the stored "token", user as "" |
| AuthContextJsx.AuthProvider.Login | src/auth/AuthContext.jsx:14-26 | same transitions as the TypeScript provider: both keys and state on acceptance, "Login inválido" and nothing written otherwise |
| AuthContextJsx.AuthProvider.Logout | src/auth/AuthContext.jsx:28-33 | only "token" removed, token and user null, navigation to /login |
| Marcadores.FindIndex | src/pages/ConfigurarMarcadores/ConfigurarMarcadores.tsx:62-63 | the first index with that `idTemporario`, or -1 iff there is none |
| Marcadores.ArrayMove | src/pages/ConfigurarMarcadores/ConfigurarMarcadores.tsx:67 | same length and a permutation; the moved element sits at the target; removing it from both leaves the same sequence (relative order kept) |
| Marcadores.DragIndices | src/pages/ConfigurarMarcadores/ConfigurarMarcadores.tsx:58-65 | no move iff no drop target, a drop onto itself, or either id not found; otherwise the two first-match indices |
| Marcadores.Reordered | src/pages/ConfigurarMarcadores/ConfigurarMarcadores.tsx:58-69 | unchanged on an early return; otherwise the dragged marker is at the target index and the others keep their relative order, as a permutation |
| Marcadores.Renumbered | src/pages/ConfigurarMarcadores/ConfigurarMarcadores.tsx:93-96 | marker i gets `ordem` i + 1; no other field changes and the order is kept |
| Marcadores.RenumberedIdempotent | src/pages/ConfigurarMarcadores/ConfigurarMarcadores.tsx:93-96 | renumbering twice equals renumbering once |
| Marcadores.RenumberedOrdens | src/pages/ConfigurarMarcadores/ConfigurarMarcadores.tsx:93-96 | the `ordem` values afterwards are exactly 1..n in list order |
| Marcadores.MarcadoresPage.constructor | src/pages/ConfigurarMarcadores/ConfigurarMarcadores.tsx:31-40 | the route comes from the URL, the list starts empty |
| Marcadores.MarcadoresPage.BuscarMarcadores | src/pages/ConfigurarMarcadores/ConfigurarMarcadores.tsx:46-54 | no request and no change without a route; otherwise one fetch and the list becomes the reply |
| Marcadores.MarcadoresPage.HandleDragEnd | src/pages/ConfigurarMarcadores/ConfigurarMarcadores.tsx:58-69 | the list afterwards is `Reordered` of the old list |
| Marcadores.MarcadoresPage.GerarMelhorRota | src/pages/ConfigurarMarcadores/ConfigurarMarcadores.tsx:71-87 | nothing without a route; otherwise the POST, followed by a fetch when it succeeds |
| Marcadores.MarcadoresPage.SalvarOrdem | src/pages/ConfigurarMarcadores/ConfigurarMarcadores.tsx:89-106 | nothing without a route; otherwise the array is renumbered in place, posted, then fetched again on success |
| RotaAlunos.Without | src/pages/ConfigurarRotaAlunos.tsx:106-111 | the filter keeps exactly the entries whose id is not listed |
| RotaAlunos.WithoutConcat | src/pages/ConfigurarRotaAlunos.tsx:106-111 | the filter keeps order: filtering a concatenation filters each part in place |
| RotaAlunos.WithoutDistinct | src/pages/ConfigurarRotaAlunos.tsx:213-216 | filtering keeps a duplicate-free list duplicate-free |
| RotaAlunos.Novos | src/pages/ConfigurarRotaAlunos.tsx:103-108 | the selected students whose id is not among the baseline's ids |
| RotaAlunos.Removidos | src/pages/ConfigurarRotaAlunos.tsx:103-111 | the baseline's students whose id is not among the selected ids |
| RotaAlunos.VincularAll | src/pages/ConfigurarRotaAlunos.tsx:115-122 | one Vincular per new student, in order, for the selected route |
| RotaAlunos.DesvincularAll | src/pages/ConfigurarRotaAlunos.tsx:126-133 | one Desvincular per removed student, in order, for the selected route |
| RotaAlunos.LinkPlan | src/pages/ConfigurarRotaAlunos.tsx:103-133 | one request per new and per removed student, all for the route; a Vincular only for a selected id not in the baseline, a Desvincular only for a baseline id no longer selected; every Vincular before every Desvincular |
| RotaAlunos.NovosRemovidosDisjoint | src/pages/ConfigurarRotaAlunos.tsx:106-111 | no id is both added and removed |
| RotaAlunos.SameIdsNoChange | src/pages/ConfigurarRotaAlunos.tsx:106-111 | with the same id sets on both sides, nothing is added or removed |
| RotaAlunos.ApplyConcat | src/pages/ConfigurarRotaAlunos.tsx:115-133 | applying two request lists in turn equals applying their concatenation |
| RotaAlunos.LinkPlanReachesSelection | src/pages/ConfigurarRotaAlunos.tsx:103-133 | diffed against the students actually linked, the requests leave the route linked to exactly the selected ids |
| RotaAlunos.FirstSaveKeepsUnselectedLinks | src/pages/ConfigurarRotaAlunos.tsx:24-111 | as written, a first save after fetching student 1 and selecting student 2 sends only a Vincular, so the route ends with both |
| RotaAlunos.Validacao | src/pages/ConfigurarRotaAlunos.tsx:81-92 | valid iff a route and at least one student; a missing route is reported first |
| RotaAlunos.SearchRequested | src/pages/ConfigurarRotaAlunos.tsx:57 | the search guard `!input \|\| input.length < 3` lets a request through exactly for 3 or more characters |
| RotaAlunos.ToOption | src/pages/ConfigurarRotaAlunos.tsx:67-71 | value is the id, label is "primeiro ultimo", raw is the student |
| RotaAlunos.ReplyOptions | src/pages/ConfigurarRotaAlunos.tsx:67-75 | no options when the search threw or `data` is null; otherwise one option per result, in order |
| RotaAlunos.RemovalThenSaveUnlinks | src/pages/ConfigurarRotaAlunos.tsx:213-216 | removing a listed student and saving against the previous list adds nothing and unlinks exactly that id |
| RotaAlunos.RotaAlunosPage.constructor | src/pages/ConfigurarRotaAlunos.tsx:18-26 | no route, every list empty, no messages |
| RotaAlunos.RotaAlunosPage.SelecionarRota | src/pages/ConfigurarRotaAlunos.tsx:43-53 | the detail fetch for the route; its students go to the ref and the selection, never to `alunosOriginais` |
| RotaAlunos.RotaAlunosPage.LoadAlunoOptions | src/pages/ConfigurarRotaAlunos.tsx:56-79 | input shorter than 3 gives no request and no options; otherwise one search with the input and the route id (when truthy), and the reply's options |
| RotaAlunos.RotaAlunosPage.AdicionarAluno | src/pages/ConfigurarRotaAlunos.tsx:186-196 | appends the student only when no entry has its id; a duplicate-free list stays duplicate-free |
| RotaAlunos.RotaAlunosPage.RemoverAluno | src/pages/ConfigurarRotaAlunos.tsx:213-216 | drops every entry with that id, keeps the others in order, keeps duplicate-freedom |
| RotaAlunos.RotaAlunosPage.Validar | src/pages/ConfigurarRotaAlunos.tsx:81-92 | returns whether `Validacao` holds and sets the error message accordingly |
| RotaAlunos.RotaAlunosPage.HandleSalvar | src/pages/ConfigurarRotaAlunos.tsx:94-147 | nothing but the error when invalid; otherwise the requests of the diff against `alunosOriginais`, success, and `alunosOriginais` becomes the selection |
| RotaAlunos.RotaAlunosPage.HandleSalvarAgainstLinked | src/pages/ConfigurarRotaAlunos.tsx:94-147 | the intended save: the diff against the fetched links, which provably leaves the route linked to exactly the selected students; `alunosOriginais` is left alone |
| RotaMotorista.IdOf | src/pages/ConfigurarRotaMotorista.tsx:85 | `m?.id`: undefined for no driver, the driver's id otherwise |
| RotaMotorista.SavePlan | src/pages/ConfigurarRotaMotorista.tsx:85-109 | no request iff the backup and current ids are equal; otherwise a Vincular with the current id, followed by a Desvincular of the backup iff its id is truthy |
| RotaMotorista.SavePlanNeverUndoesItself | src/pages/ConfigurarRotaMotorista.tsx:85-109 | a save never unlinks the driver it links, nor links the driver already linked |
| RotaMotorista.Candidates | src/pages/ConfigurarRotaMotorista.tsx:164-165 | exactly the drivers whose id differs from the linked driver's |
| RotaMotorista.FullName | src/pages/ConfigurarRotaMotorista.tsx:169 | the first name (or ""), one blank, then the last name (or "") |
| RotaMotorista.CandidatesConcat | src/pages/ConfigurarRotaMotorista.tsx:164-165 | the filter keeps the remaining drivers in order |
| RotaMotorista.Label | src/pages/ConfigurarRotaMotorista.tsx:168-170 | never empty, no surrounding white space: the trimmed full name, or "Motorista sem nome" when that is blank |
| RotaMotorista.LabelWithoutNames | src/pages/ConfigurarRotaMotorista.tsx:168-170 | a driver without name parts gets "Motorista sem nome" |
| RotaMotorista.LabelFirstNameOnly | src/pages/ConfigurarRotaMotorista.tsx:168-170 | a driver with only a first name is labelled by it, without the separating blank |
| RotaMotorista.DriverOptions | src/pages/ConfigurarRotaMotorista.tsx:164-171 | one option per candidate, in order, with its id and label |
| RotaMotorista.RotaOptions | src/pages/ConfigurarRotaMotorista.tsx:150-153 | one option per route with its id and name |
| RotaMotorista.FindById | src/pages/ConfigurarRotaMotorista.tsx:173-175 | the first driver with that id, or undefined iff none has it |
| RotaMotorista.RemovalThenSaveUnlinks | src/pages/ConfigurarRotaMotorista.tsx:85-109 | after removing the driver, a save sends a Vincular without a driver and then unlinks the previous one |
| RotaMotorista.RotaMotoristaPage.constructor | src/pages/ConfigurarRotaMotorista.tsx:17-30 | empty lists, no route or driver, no messages |
| RotaMotorista.RotaMotoristaPage.CarregarMotoristas | src/pages/ConfigurarRotaMotorista.tsx:32-47 | the list becomes `data` or []; a failure only sets "Erro ao carregar motoristas" |
| RotaMotorista.RotaMotoristaPage.CarregarRotas | src/pages/ConfigurarRotaMotorista.tsx:49-62 | the list becomes `data` or []; a failure only sets "Erro ao carregar rotas" |
| RotaMotorista.RotaMotoristaPage.SelecionarRota | src/pages/ConfigurarRotaMotorista.tsx:64-74 | the linked-driver fetch for the route; its driver (or `{}`) becomes both current and backup |
| RotaMotorista.RotaMotoristaPage.SelecionarMotorista | src/pages/ConfigurarRotaMotorista.tsx:172-177 | the current driver becomes `FindById` of the option's value |
| RotaMotorista.RotaMotoristaPage.RemoverVinculado | src/pages/ConfigurarRotaMotorista.tsx:194 | the current driver becomes undefined |
| RotaMotorista.RotaMotoristaPage.HandleSalvar | src/pages/ConfigurarRotaMotorista.tsx:76-128 | the requests of `SavePlan`, stopping at the first failure or at a missing route. A failure sets "Falha ao salvar. Tente novamente." and keeps the selections. Success resets route, driver, list and backup and sets the success message |
| Motoristas.DateField | src/pages/GerenciarMotoristas.tsx:129-136 | a date is copied iff truthy, otherwise undefined |
| Motoristas.FormFor | src/pages/GerenciarMotoristas.tsx:114-139 | for every driver, each present field is kept (0, "" and false included) and each absent one takes the reset form's value; dates go through `DateField`; for a complete driver, exporting the form gives the driver back |
| Motoristas.Export | src/pages/GerenciarMotoristas.tsx:76-78 | the body sent carries every form field as present, the dates as they are (undefined ones dropped) and the given id |
| Motoristas.ExportThenFormFor | src/pages/GerenciarMotoristas.tsx:76-139 | editing a body that was saved from a form gives that form back, unless a date was the empty text |
| Motoristas.FormForEmpty | src/pages/GerenciarMotoristas.tsx:86-139 | editing a driver with no field gives exactly the reset form |
| Motoristas.FormForKeepsFalsy | src/pages/GerenciarMotoristas.tsx:117-128 | a present 0, "" or false is kept by `??` |
| Motoristas.EmptyDateDropped | src/pages/GerenciarMotoristas.tsx:134-136 | an empty date text is falsy and becomes undefined |
| Motoristas.StatusLabel | src/pages/GerenciarMotoristas.tsx:411 | "Ativo" iff status is 1, "Desativado" otherwise |
| Motoristas.MotoristasPage.constructor | src/pages/GerenciarMotoristas.tsx:15-40 | dialog closed, nothing edited, the default form |
| Motoristas.MotoristasPage.Novo | src/pages/GerenciarMotoristas.tsx:184-190 | nothing edited, the default form, dialog open |
| Motoristas.MotoristasPage.AbrirEditar | src/pages/GerenciarMotoristas.tsx:114-141 | the driver is edited with `FormFor` of it, dialog open |
| Motoristas.MotoristasPage.SalvarMotorista | src/pages/GerenciarMotoristas.tsx:74-84 | a PUT with the edited id when it is not null (0 included), a POST otherwise. On success: dialog closed, nothing edited, form reset, list fetched. On failure nothing more |
| Motoristas.MotoristasPage.RemoverMotorista | src/pages/GerenciarMotoristas.tsx:109-112 | a DELETE of `id ?? 0`, then a fetch on success |
| Rotas.PutBody | src/pages/GerenciarRotas.tsx:61 | `{id, ...form}`: the form's own id wins when present; every other field is the form's |
| Rotas.WithStatusChecked | src/pages/GerenciarRotas.tsx:182-186 | checked gives status 1, unchecked 2, and the checkbox then shows what was set; nothing else changes |
| Rotas.StatusChecked | src/pages/GerenciarRotas.tsx:181 | the checkbox is checked exactly when the card would show "Ativo" |
| Rotas.StatusCheckboxRoundTrip | src/pages/GerenciarRotas.tsx:181-186 | writing back what the checkbox shows leaves a status of 1 or 2 unchanged |
| Rotas.FindDia | src/pages/GerenciarRotas.tsx:233 | the first table entry with that id, or nothing iff none has it |
| Rotas.DiaSemanaLabel | src/pages/GerenciarRotas.tsx:233 | a description iff the id is 0..9, and then the one at that position |
| Rotas.DiaSemanaIds | src/pages/GerenciarRotas.tsx:23-34 | ten entries, the entry at position i has id i (so ids are unique) |
| Rotas.TipoRotaLabel | src/pages/GerenciarRotas.tsx:235 | "Ida" iff tipoRota is 1, "Volta" otherwise |
| Rotas.StatusLabel | src/pages/GerenciarRotas.tsx:236 | "Ativo" iff status is 1, "Deletado" otherwise |
| Rotas.MarkerLinkOnlyOnActive | src/pages/GerenciarRotas.tsx:236-252 | a card showing the marker link also shows "Ativo" |
| Rotas.ShowMarkerLink | src/pages/GerenciarRotas.tsx:252 | the marker link is shown iff the route is bound to Google Maps and its status checkbox would be checked |
| Rotas.RotasPage.constructor | src/pages/GerenciarRotas.tsx:19-21 | dialog closed, nothing edited, the form `{}` |
| Rotas.RotasPage.ResetFormData | src/pages/GerenciarRotas.tsx:81-84 | form has status 1, not bound to Google Maps, nothing else; nothing edited |
| Rotas.RotasPage.Nova | src/pages/GerenciarRotas.tsx:92-97 | a reset form in an open dialog |
| Rotas.RotasPage.AbrirEditar | src/pages/GerenciarRotas.tsx:75-79 | the route is edited and is the form; dialog open |
| Rotas.RotasPage.ToggleStatus | src/pages/GerenciarRotas.tsx:178-187 | the form becomes `WithStatusChecked` of itself |
| Rotas.RotasPage.SalvarRota | src/pages/GerenciarRotas.tsx:55-68 | a PUT with `PutBody` when the edited id is truthy (id 0 goes to POST), a POST of the form otherwise. On success: list fetched, dialog closed, form reset. On failure nothing more |
| Rotas.RotasPage.RemoverRota | src/pages/GerenciarRotas.tsx:70-73 | a DELETE of the route's id, then a fetch on success |

## Left out

- HTTP itself (axios, `fetch`, base URL, JSON parsing): replies are method parameters, and requests are returned as values naming the endpoint.
- `loginRequest` (src/auth/authService.tsx): its result is the parameter of `Login`.
- The S3 photo upload of src/pages/GerenciarMotoristas.tsx (lines 143-176): I/O only.
- Asynchrony. The model fixes one event order per method:
  - the 2000 ms debounce of the student search;
  - the 3 s timer that clears the success message;
  - Promise scheduling.
  The gateway's two interceptor halves are separate methods because the `await` splits them.
- `Promise.all` in src/pages/ConfigurarRotaAlunos.tsx:135-141 receives two arrays, not promises. It resolves at once, so `RotaAlunos.RotaAlunosPage.HandleSalvar` succeeds whatever the PUTs answer. Their failures are unhandled rejections, which the model does not represent.
- Reissuing a request (`api(originalRequest)`) and the response to it. `OnRefreshSettled` returns the reissued requests; their fate is a new run of the gateway.
- React rendering, hooks and navigation: Login.jsx, Menu.jsx, App.jsx, RemoverDialog.tsx, SortableItem.tsx and PrivateRoute.jsx. Navigation targets are returned as paths.
- Loading and saving flags, `alert`, `console.log`, Google Maps rendering, and marker coordinates and students.
- List fetches that only store what arrives: the driver, route, profile, CNH and vehicle lists of the two management pages.
- Per-field `onChange` setters of the two management forms, except the route status checkbox.
- Motoristas.FormFor: `new Date(...)` is not modelled; a date is kept as the text the backend sent.
- Storage.AfterLogin, Api.Gateway.OnRefreshSettled: an absent value written with `setItem` is stored as "undefined". A JSON null, which would be stored as "null", is not told apart from an absent field.
- RotaAlunos.ToOption: an absent name is captioned "undefined". A name that is JSON null, which the template literal renders as "null", is not told apart from an absent one.
- HTTP header names are case-sensitive map keys here; the `Headers` object of `fetch` ignores case.
- String lengths count characters, not UTF-16 code units; the search threshold of 3 only differs for characters outside the Basic Multilingual Plane.
- Marcadores.MarcadoresPage.BuscarMarcadores: a failed fetch (an unhandled rejection in the page) is not modelled.
- RotaMotorista.RotaMotoristaPage.SelecionarRota, RotaAlunos.RotaAlunosPage.SelecionarRota: the route option is always an object, as the selector never clears it.
- The gateway leaves two cases unhandled, and the model follows the code:
  - on a failed refresh, the queued requests are neither rejected nor removed;
  - requests reissued from the queue do not get `_retry`, so a second 401 can start another refresh.
- Types.Rota leaves out `enderecoId`, `emAndamento` and the `veiculo` object of src/types/Rota.tsx. `Rotas.PutBody` spreads them unchanged, so the model does not state what the PUT body carries for them.
- The "Remover" buttons of the two route-configuration pages have no `type` and sit inside the form, so they default to submitting it. A click is modelled as the removal alone (`RotaAlunos.RotaAlunosPage.RemoverAluno`, `RotaMotorista.RotaMotoristaPage.RemoverVinculado`). React commits the removal before the button's default action, and the button, now unmounted, has no form left to submit. The missing `type="button"` is a latent hazard only.

## Findings

| source | as written | input that shows it | evidently intended | confidence | as-written member | corrected member |
|---|---|---|---|---|---|---|
| src/auth/httpService.ts:47-48 | the reissue after a refresh sets `Authorization` to `Bearer ${newToken}` with `newToken` the whole payload object | a refresh answering `{accessToken: "A2", refreshToken: "R2"}`: the reissue carries "Bearer [object Object]" and fails again | "Bearer " + the new access credential, as stored under "token" | high, not executed | HttpService.ReissueHeaderAsWrittenIsStale | HttpService.ReissueMatchesFreshCall |
| src/pages/ConfigurarRotaAlunos.tsx:24-111 | the diff is taken against `alunosOriginais`, which is [] until a save succeeds; the fetched links go only to a ref | a route linked to student 1; the user replaces it by student 2 and saves: only Vincular(2) is sent and student 1 stays linked | diff against the students fetched as linked | high, not executed | RotaAlunos.FirstSaveKeepsUnselectedLinks | RotaAlunos.RotaAlunosPage.HandleSalvarAgainstLinked |
