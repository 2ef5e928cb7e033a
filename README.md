# API lifecycle test harness, modelled in Dafny

The repository is a manual API test harness in two parts.

- A mock Express backend (`src/server/server.ts`) simulates a four-step user lifecycle: register, log in, update data, list orders. It injects failures by fixed rules on the user identifier and by random draws.
- A browser test runner (`src/client/app.ts`, class `ApiTestManager`) chains those calls into four flows. Each flow aborts at the first failing step. The runner appends a titled result record per event and keeps a status badge. In client mode it redacts what it displays; in monitor mode it shows everything.

The model has five modules:

- `JsValues` (`js_values.dfy`): the JavaScript values both halves exchange. It covers parsed JSON, truthiness, `String(x)`, `Number(s)` for decimal strings and `String.prototype.includes`.
- `Server` (`server.dfy`): the four route handlers and `enviarErroAleatorio`, as pure functions. Every `Math.random()` draw is a parameter.
  - The registration draw is an integer in [0, 90000).
  - The orders fault is a boolean.
  - The catalog choice is an index in [0, 4).
  - The parsed query identifier is an `Option<int>`, where `None` is missing or NaN.
- `Redaction` (`redaction.dfy`): the client-mode filter of `adicionarResultado`, a pure transform over an object or a string.
- `TestRunner` (`test_runner.dfy`): the class `ApiTestManager`, with its record list, `usuarioId` and badge as fields. The step and flow methods take the outcome of each request as input instead of calling `fetch`. Specification functions (`StepRecords`, `FlowRun`, `FlowRecords`, `FlowBadge`) state what a step and a flow append. The lemmas prove the following about them:
  - abort on first failure;
  - exact record counts, order and titles;
  - the final badge;
  - the prefix relation between flows;
  - client mode only ever displays filtered content.
- `EndToEnd` (`end_to_end.dfy`): connects the two halves. When each outcome is the handler's parsed response, every flow's verdict is decided by the server's fault rules.

Titles, the runner's fixed notices and the client-mode summary messages are kept by name. `TitleText`, `NoticeText` and `MessageText` give the exact Portuguese strings the page shows. `Rendered` gives the content object or string a record stands for, and `FilterRendered` proves that filtering by name agrees with filtering the rendered content.

## Model

| member | source | states |
|---|---|---|
| JsValues.NatToString | src/client/app.ts:151 | `String(n)` of a natural number is a non-empty string of decimal digits with no leading zero |
| JsValues.NatToStringRoundTrip | src/client/app.ts:242 | the decimal text of `n` reads back as `n` |
| JsValues.Truthy | src/server/server.ts:17 | JavaScript truthiness of a property read, as `!x` and `if (x)` test it; its contract is `FalsyValues` |
| JsValues.FalsyValues | src/client/app.ts:143-155 | a value is falsy exactly when it is `undefined`, `null`, `false`, `0` or `""` |
| JsValues.Get | src/client/app.ts:145-157 | a property read on a parsed value; its contract is `PropRead` |
| JsValues.Prop | src/client/app.ts:212 | a property read on a reply body; its contract is `PropRead` |
| JsValues.PropRead | src/client/app.ts:145-157 | for the keys the code reads (`usuarioId`, `pedidos`, `erro`), a read yields a value exactly when the value is an object that has the key, and then it is that key's value and agrees with `Prop`; reading one of them on anything else gives `undefined` |
| JsValues.ParseNumber | src/server/server.ts:30 | `Number(s)` of a string of decimal digits is its decimal value; a number read has digits after its first character and is negative only after a leading `-` |
| JsValues.ParseIntToString | src/server/server.ts:30 | `Number(String(i)) === i` for every integer of the model, so the identifier in `?usuarioId=${id}` reaches the handler unchanged (JavaScript agrees below 2^53) |
| JsValues.IntToString | src/client/app.ts:242 | `String(i)` of an integer, as `${usuarioId}` prints it; its contracts are `IntToStringSign` and `ParseIntToString` |
| JsValues.IntToStringSign | src/client/app.ts:242 | the text is never empty and starts with `-` exactly when the integer is negative |
| JsValues.ToText | src/client/app.ts:156 | the text of a number parses back to that number; the text of a string is the string |
| JsValues.JoinText | src/client/app.ts:156 | `Array.prototype.join(',')`, which `String()` and `'Erro: ' + erro` apply to arrays; its contracts are `ArrayText` and `ArrayTextPair` |
| JsValues.ArrayText | src/client/app.ts:156 | `String([])` and `String([null])` are empty, and a one-element array prints as its element |
| JsValues.ArrayTextPair | src/client/app.ts:156 | two elements print joined by one comma |
| JsValues.Contains | src/client/app.ts:162 | `s.includes(p)`; its contracts are `ContainsInfix` and `ContainsChar` |
| JsValues.ContainsInfix | src/client/app.ts:162 | a string includes every string it is built around, and no string longer than itself |
| JsValues.ContainsChar | src/client/app.ts:162 | if `s.includes(p)`, every character of `p` occurs in `s` |
| Server.JsRem | src/server/server.ts:37 | JavaScript `%`: the dividend minus the result is a multiple of the divisor, the result has magnitude below the divisor and takes the dividend's sign |
| Server.IdGiven | src/server/server.ts:32 | the identifier counts as given exactly when `Number(req.query.usuarioId)` is truthy: present, not NaN and not 0 |
| Server.BodyJson | src/server/server.ts:13-96 | every body sent is an object with exactly one key, `erro`, `usuarioId`, `mensagem` or `pedidos` as the response is, holding the error text, the identifier, the message text, or the orders one by one as `{ id, valor, data }` objects |
| Server.JsRemZero | src/server/server.ts:37 | JavaScript `%` is 0 exactly when the Euclidean remainder is 0, for negative dividends too |
| Server.EnviarErroAleatorio | src/server/server.ts:87-97 | index `i` yields the `i`-th catalog pair as status and `{erro}` body; the status is one of 504, 401, 400, 500 |
| Server.CatalogStatusDeterminesEntry | src/server/server.ts:88-95 | the four catalog statuses are distinct, so the status identifies which entry was drawn |
| Server.CatalogNeverOk | src/server/server.ts:88-96 | no catalog response is 2xx, and none is the missing-identifier answer |
| Server.Cadastro | src/server/server.ts:13-26 | 400 `Dados incompletos` if and only if `nome`, `email` or `senha` is falsy; otherwise 200 with `usuarioId = draw + 10000`, in [10000, 99999] |
| Server.CadastroIgnoresOrigem | src/server/server.ts:14-19 | `origem` never affects the response |
| Server.CadastroCoversIdRange | src/server/server.ts:21-25 | each identifier in [10000, 99999] comes from exactly one draw |
| Server.Login | src/server/server.ts:29-43 | a falsy parsed identifier gets 400 `usuarioId não fornecido`; otherwise a catalog error if and only if `id % 5 == 0`, else 200 `Login realizado com sucesso` |
| Server.Alteracao | src/server/server.ts:46-60 | a falsy parsed identifier gets 400 `usuarioId não fornecido`; otherwise a catalog error if and only if `id % 3 == 0`, else 200 `Dados alterados com sucesso` |
| Server.Pedidos | src/server/server.ts:63-84 | a falsy parsed identifier gets 400; otherwise a catalog error if and only if the fault fires, else 200 with exactly three orders, ids 1, 2, 3 in order, with the fixed dates |
| Server.MissingIdPrecedesFaults | src/server/server.ts:30-34 | the identifier check comes before every fault rule: all three handlers answer the same 400 whatever the draws |
| Redaction.RedactData | src/client/app.ts:143-158 | with a truthy `usuarioId`, `data` becomes `{status: 'ID gerado com sucesso'}`; else truthy `pedidos` gives `<length> pedidos encontrados`; else truthy `erro` gives `Erro: <erro>`; else `data` is unchanged |
| Redaction.LengthText | src/client/app.ts:151 | for an array or a string, the text read as a number is its length |
| Redaction.ClientFilter | src/client/app.ts:136-165 | a string comes back unchanged or as the placeholder, and never contains `usuarioId:`; an object keeps its keys and every property other than `data`, a truthy `data` becomes `RedactData` of it, and an object without a truthy `data` comes back unchanged |
| Redaction.Filter | src/client/app.ts:127-171 | monitor mode displays the content as given; client mode displays the client filter's result, which a second pass of the filter leaves unchanged |
| Redaction.ModesAgreeIffRedacted | src/client/app.ts:127-171 | the two modes display the same thing exactly when the content is already as the client filter leaves it |
| Redaction.PlaceholderHasNoMarker | src/client/app.ts:162-163 | the placeholder `Processando requisição...` does not contain `usuarioId:` |
| Redaction.ClientFilterText | src/client/app.ts:159-165 | a string is replaced by the placeholder exactly when it contains `usuarioId:`; the displayed string never contains it |
| Redaction.ClientFilterObject | src/client/app.ts:138-158 | the copy keeps the same keys and every key other than `data`; a rewritten `data` has the single key `status`; an identifier takes precedence over orders and errors |
| Redaction.RedactDataIdempotent | src/client/app.ts:143-158 | rewriting `data` twice equals rewriting it once, and a truthy `data` stays truthy |
| Redaction.ClientFilterIdempotent | src/client/app.ts:136-165 | the client-mode filter is idempotent |
| TestRunner.Stages | src/client/app.ts:386-471 | each flow runs a prefix of registration, login, update, listing, starting with registration, which occurs only first |
| TestRunner.TitleText | src/client/app.ts:179-468 | the heading each record title shows, as exact strings |
| TestRunner.StageWord | src/client/app.ts:390-465 | the stage names the abort messages use contain no colon |
| TestRunner.NoticeText | src/client/app.ts:179-468 | none of the runner's fixed notices (`Enviando requisição...`, the communication failure, the abort and completion messages) contains a colon |
| TestRunner.NoticeUnmasked | src/client/app.ts:160-164 | no fixed notice contains `usuarioId:`, so the client filter never masks one |
| TestRunner.FilterDisplay | src/client/app.ts:127-171 | the filter applied to a record's display; its contract is `FilterRendered` |
| TestRunner.FilterRendered | src/client/app.ts:119-171 | filtering a record by name gives the same content as filtering its rendered content |
| TestRunner.CleanRendered | src/client/app.ts:136-171 | what a clean record displays is content the client filter leaves unchanged |
| TestRunner.ErroOrUnknown | src/client/app.ts:272 | a non-empty string `erro` is shown as it is and a non-zero number as its decimal text; a missing or falsy `erro` shows `Erro desconhecido` |
| TestRunner.ClientOkMessage | src/client/app.ts:207-359 | registration, login and update have fixed success messages that ignore the reply; the listing message is the number of orders (an array's length, `0` when `pedidos` is falsy) followed by ` pedido(s) encontrado(s)` |
| TestRunner.ClientErrorMessage | src/client/app.ts:222-372 | registration's failure message is fixed; the others end with the reply's `erro` text or `Erro desconhecido` |
| TestRunner.OutcomeTitle | src/client/app.ts:198-380 | the title of a step's second record; its contract is `OutcomeTitleCases` |
| TestRunner.OutcomeTitleCases | src/client/app.ts:198-380 | an exception gives `Erro na Requisição de …`, a 2xx reply the stage's success title, any other reply the stage's error title |
| TestRunner.MonitorContent | src/client/app.ts:198-379 | monitor mode's content once a request has ended; its contract is `MonitorContentShape` |
| TestRunner.MonitorContentShape | src/client/app.ts:198-379 | an exception is shown as thrown; a reply shows its status, its body under `data` (2xx) or `error` and never both, and the request (registration) or the identifier (other stages) |
| TestRunner.ClientContent | src/client/app.ts:206-380 | client mode's content once a request has ended; its contract is `ClientContentShape` |
| TestRunner.ClientContentShape | src/client/app.ts:206-380 | an exception shows `Falha na comunicação com o servidor`; a reply shows its status and a message chosen by stage and by whether it was 2xx, built from the reply body; the filter leaves it unchanged |
| TestRunner.Ok | src/client/app.ts:198 | `response.ok`: a reply with a 2xx status; `StepRecords` and `PassesIff` state what it decides |
| TestRunner.OutcomeContent | src/client/app.ts:200-226 | each step's `if (this.isMonitorMode)` choice of content; its contracts are `OutcomeContentMode` and `OutcomeUnfiltered` |
| TestRunner.OutcomeContentMode | src/client/app.ts:200-226 | monitor mode shows the content it builds as it is; client mode shows only the communication notice, exactly when the request threw, or a `{ status, mensagem }` summary of a reply |
| TestRunner.Shown | src/client/app.ts:127-171 | the record `adicionarResultado` keeps: the title, the content filtered for the mode and the flag; its contract is `ShownClean` |
| TestRunner.StepRecords | src/client/app.ts:177-235 | a step appends exactly two records: `Iniciando …` with success, then one record titled by the outcome, successful exactly when the reply is 2xx |
| TestRunner.OutcomeUnfiltered | src/client/app.ts:136-158 | the filter never changes a step's outcome record: monitor mode shows everything, and client summaries carry no `data` |
| TestRunner.RegisteredId | src/client/app.ts:212-233 | what `cadastrarUsuario` returns; its contract is `RegisteredIdIff` |
| TestRunner.RegisteredIdIff | src/client/app.ts:212-233 | an identifier is returned exactly when the reply is 2xx and carries `usuarioId`, and it is that value |
| TestRunner.Passes | src/client/app.ts:389-464 | whether a flow goes on after a stage; its contract is `PassesIff` |
| TestRunner.PassesIff | src/client/app.ts:389-464 | a stage passes only on a 2xx reply; login, update and listing pass exactly then, registration also needs a truthy `usuarioId` |
| TestRunner.RunSteps | src/client/app.ts:406-471 | the steps after registration until one fails; its contracts are `RunStepsLength`, `RunStepsStops` and `RunStepsInOrder` |
| TestRunner.RunStepsLength | src/client/app.ts:406-471 | at most two records per step, and exactly two per step when none fails |
| TestRunner.FlowRun | src/client/app.ts:386-471 | a flow's steps; its contracts are `FlowRunLength`, `FlowStops` and `FlowInOrder` |
| TestRunner.FlowRunLength | src/client/app.ts:386-471 | a flow shows at least registration's two records, at most two per stage, and two per stage when none fails |
| TestRunner.Ending | src/client/app.ts:389-469 | what a flow appends after its steps; its contract is `EndingShape` |
| TestRunner.EndingShape | src/client/app.ts:389-469 | after a failure, one failing record titled with the flow's abort and naming the stage; with no failure, one successful record for the Listagem flow and nothing for the others |
| TestRunner.FlowRecords | src/client/app.ts:386-471 | every record a flow appends; its contracts are `FlowShape` and `FlowInOrder` |
| TestRunner.FlowBadge | src/client/app.ts:386-471 | the badge a flow leaves; its contract is `FlowFailsIff` |
| TestRunner.FirstFailure | src/client/app.ts:386-471 | the index of the first stage that does not pass: all earlier stages pass and that one does not |
| TestRunner.RunStepsStops | src/client/app.ts:406-471 | the steps after registration stop at the first failing one, report it, and append two records per step run |
| TestRunner.RunStepsInOrder | src/client/app.ts:406-471 | every step up to the first failing one appears in order, at records `2j` and `2j + 1` |
| TestRunner.FlowStops | src/client/app.ts:386-471 | a flow stops at its first failing stage and reports it; it appends `2(k + 1)` step records if stage `k` fails, else two per stage |
| TestRunner.FlowInOrder | src/client/app.ts:386-471 | every stage of a flow up to the first failing one appears, two records each, in order |
| TestRunner.FlowShape | src/client/app.ts:386-471 | if stage `k` fails, the flow ends with one abort record naming that stage, `2k + 3` records in all, and badge `Falha`; otherwise badge `Concluído`, and only the Listagem flow appends `Fluxo de Teste Completo` |
| TestRunner.FlowFailsIff | src/client/app.ts:386-471 | the badge is `Falha` if and only if some stage of the flow does not pass |
| TestRunner.RunStepsStopsAtFailure | src/client/app.ts:406-471 | once a step fails, later stages and outcomes change nothing |
| TestRunner.FlowPrefix | src/client/app.ts:386-471 | if a shorter flow fails on some outcomes, a longer flow given the same outcomes fails identically and ignores its later outcomes |
| TestRunner.RunStepsOntoAppends | src/client/app.ts:406-471 | running steps onto records already on the page keeps them and appends exactly the steps' records |
| TestRunner.FlowRunOntoRun | src/client/app.ts:386-471 | running a flow onto records already on the page keeps them and appends exactly the flow's step records |
| TestRunner.FlowRunOntoAppends | src/client/app.ts:386-471 | the page after a flow is the earlier records, then the flow's records with its ending; the badge is `Falha` exactly when the run failed |
| TestRunner.ShownClean | src/client/app.ts:136-171 | in client mode, the content `adicionarResultado` displays is unchanged by a second pass of the filter |
| TestRunner.StepRecordsClean | src/client/app.ts:177-383 | in client mode, both records of every step are filtered content |
| TestRunner.RunStepsClean | src/client/app.ts:406-471 | in client mode, every record of the later steps is filtered content |
| TestRunner.FlowRecordsClean | src/client/app.ts:386-471 | in client mode, every record a flow displays is filtered content |
| TestRunner.ApiTestManager.constructor | src/client/app.ts:20-36 | the runner starts with no records, a null identifier, its mode and the initial badge |
| TestRunner.ApiTestManager.LimparResultados | src/client/app.ts:108-112 | empties the records, sets the identifier to null and the badge to (`Aguardando`, info) |
| TestRunner.ApiTestManager.AtualizarStatus | src/client/app.ts:114-117 | the badge becomes the given text and kind |
| TestRunner.ApiTestManager.AdicionarResultado | src/client/app.ts:119-174 | appends one record: the title, the content filtered for the mode, and the success flag; in client mode every displayed content stays filtered |
| TestRunner.ApiTestManager.CadastrarUsuario | src/client/app.ts:177-235 | appends the registration step's two records and returns `data.usuarioId` of a 2xx reply, else null |
| TestRunner.ApiTestManager.RealizarLogin | src/client/app.ts:238-283 | appends the login step's two records and returns whether the reply was 2xx |
| TestRunner.ApiTestManager.AlterarDados | src/client/app.ts:286-334 | appends the update step's two records and returns whether the reply was 2xx |
| TestRunner.ApiTestManager.ListarPedidos | src/client/app.ts:337-383 | appends the listing step's two records and returns whether the reply was 2xx |
| TestRunner.ApiTestManager.ExecutarFluxoCadastro | src/client/app.ts:386-395 | appends exactly the Cadastro flow's records, sets its badge, and holds the registered identifier |
| TestRunner.ApiTestManager.ExecutarFluxoLogin | src/client/app.ts:397-413 | appends exactly the Login flow's records, sets its badge, and holds the registered identifier |
| TestRunner.ApiTestManager.ExecutarFluxoEdicao | src/client/app.ts:415-438 | appends exactly the Edição flow's records, sets its badge, and holds the registered identifier |
| TestRunner.ApiTestManager.ExecutarFluxoListagem | src/client/app.ts:440-471 | appends exactly the Listagem flow's records, sets its badge, and holds the registered identifier |
| TestRunner.ApiTestManager.OnFlowButton | src/client/app.ts:82-106 | a button click clears the page, then leaves exactly the flow's records and badge; in client mode every displayed content is filtered |
| EndToEnd.QueryOf | src/client/app.ts:242 | the identifier as `?usuarioId=${id}` sends it and `Number(req.query.usuarioId)` (server.ts:30) reads it back; its contract is `QueryCarriesId` |
| EndToEnd.ServerOutcomes | src/client/app.ts:188-196 | the runner receives, for each stage, the status and parsed body of that handler's response |
| EndToEnd.RegistrationYieldsId | src/client/app.ts:181-212 | the runner's registration request is complete, so registration always passes and yields `draw + 10000` |
| EndToEnd.QueryCarriesId | src/server/server.ts:30 | the handlers parse back exactly the identifier the runner registered, a truthy number |
| EndToEnd.LoginPassesIff | src/server/server.ts:36-42 | against the backend, the login step passes if and only if the identifier is not divisible by 5 |
| EndToEnd.AlteracaoPassesIff | src/server/server.ts:53-59 | against the backend, the update step passes if and only if the identifier is not divisible by 3 |
| EndToEnd.ListagemPassesIff | src/server/server.ts:70-83 | against the backend, the listing step passes if and only if the orders fault does not fire |
| EndToEnd.StagePassesIff | src/server/server.ts:13-84 | every stage passes exactly when the backend's fault rule for it does not fire |
| EndToEnd.FirstFailureIsFirstFault | src/client/app.ts:386-471 | against the backend, the runner's first failing stage is the first stage whose fault rule fires |
| EndToEnd.FlowVerdict | src/client/app.ts:386-471 | against the backend, every flow stops at the first stage whose fault rule fires and shows `Falha`, else shows `Concluído` |
| EndToEnd.FirstFaultAllStages | src/server/server.ts:36-73 | over all four stages, the first fault is at login if `id % 5 == 0`, else at update if `id % 3 == 0`, else at listing if the fault fires |
| EndToEnd.ListagemFlowVerdict | src/client/app.ts:440-471 | the full flow passes if and only if the identifier is divisible by neither 5 nor 3 and the orders fault does not fire; otherwise it stops at login, update or listing, in that precedence |
| EndToEnd.ClientListingMessage | src/client/app.ts:355-359 | in client mode a successful listing shows the text of 3 followed by ` pedido(s) encontrado(s)`, and that text is `3` |
| EndToEnd.ClientLoginErrorMessage | src/client/app.ts:270-273 | in client mode a failed login shows `Falha na autenticação: ` followed by the catalog's error text |

## Left out

- DOM work is not modelled: element creation, `innerHTML`, classes, the mode indicator, the mode toggle and `window.location`. `isMonitorMode` is a constructor parameter. Records are (title, content, success) values, not `<div>` elements.
- The displayed text is not modelled. `JSON.stringify(…, null, 2)` and `toString()` are not modelled; records hold the structured content.
- `fetch` and `response.json()` are not modelled. Each becomes an `Outcome` passed in: a reply whose body parsed as a JSON object, or a thrown error.
- Reply bodies that parse to something other than an object are left out. With `null`, `data.erro` throws inside the step.
- `async`/`await` are plain sequential calls.
- The Express bootstrap is not modelled: `cors`, `express.json`, static files, the `/` route and `listen`.
- `Math.random()` and the 10% rate are not modelled: floating point and probability are outside the model. Every draw is a parameter, and both branches are proved.
- Fractional numbers are left out. JSON numbers are integers, so the order amounts (150.0, 89.9, 200.5) are integer cents.
- `Number(req.query.usuarioId)` is modelled on strings of decimal digits with an optional minus sign, and every other string counts as NaN. JavaScript reads more strings as numbers: surrounding whitespace, a leading `+`, hexadecimal (`0x`), binary (`0b`) and octal (`0o`) prefixes, exponents, fractions, and `Infinity` and `-Infinity`. An infinite identifier passes the `!usuarioId` test (server.ts:32), and `Infinity % 5` and `Infinity % 3` are NaN, not 0 (server.ts:37, 54). So JavaScript answers `?usuarioId=Infinity` with 200 from login and from the update, and the orders handler answers it normally. The model answers all three with the 400 for a missing identifier.
- Numbers are exact integers. JavaScript numbers are doubles, so `Number(s)`, `String(n)` and `%` agree with the model only below 2^53 in magnitude: a 20-digit string rounds when read, and `String(n)` switches to exponent notation from 1e21. The identifiers the backend issues have five digits.
- String lengths count characters. JavaScript's `.length` counts UTF-16 code units, so `LengthText` of a string with characters outside the Basic Multilingual Plane is smaller than JavaScript's.
- In monitor mode a thrown error is kept as the content it is given. How `Error` objects stringify is not modelled.
- `TestRunner.ApiTestManager.CadastrarUsuario`, `RealizarLogin`, `AlterarDados`, `ListarPedidos` and the four `ExecutarFluxo…` methods do not restate the client-mode invariant `Valid`. `AdicionarResultado`, which appends every record, preserves it, `StepRecordsClean` and `FlowRecordsClean` prove every record they append is clean, and `OnFlowButton` ensures `Valid` after a whole flow.
- `TestRunner.ApiTestManager.OnFlowButton` assumes one flow at a time. The click handlers do not await the flow, so a second click while a request is pending could interleave two flows on the same records and identifier; that interleaving is not modelled.
- `TestRunner.ApiTestManager.usuarioId` holds the JSON value `data.usuarioId`, not a number. A server answering a non-number identifier is then handled as the source handles it.

Notes on the code:

- Identifiers run from 10000 to 99999 inclusive: `Math.floor(Math.random() * 90000) + 10000` (server.ts:22).
- The flows do not clear the page; each click handler calls `limparResultados` first (app.ts:84-105, `OnFlowButton`).
- Client-mode redaction only looks at the top-level `data` property, and a string is only checked for `usuarioId:`.
- The runner's own client-mode calls never pass a `data` property. So the `data` rewrite is never reached from the flows (`OutcomeUnfiltered`), though it is modelled and proved for any caller.
