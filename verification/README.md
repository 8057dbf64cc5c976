# Cobranza Azul — the record store and its forms, in Dafny

This project models the bookkeeping core of the Cobranza Azul collections dashboard.

- **The store (`useCobranzas`).** It holds four slots: the clients, their debts (`deudas`), the scheduled payments to providers (`abonos`) and the mail configuration. It derives a dashboard summary, the clients with active debts, and the debts due today and tomorrow. The repository has two copies of the hook. The copy at the root also generates the seed data: 95 clients, one to four debts for each client, and 18 abonos.
- **The forms.** Three forms drive the store:
  - `AbonosForm` schedules a payment for a client's selected debts.
  - `ConfiguracionCorreo` edits the mail settings and the list of report recipients.
  - `DeudasForm` adds, edits and deletes debts, and gives each table row its profit colour, its days to the due date and its status badge.

How the model is laid out:

- **Data.** Records are datatypes (`modelo.dfy`). A `Partial<T>` update is a datatype of `Option` fields.
- **The store.** It is the class `Almacen.Cobranzas`. Each of its methods reassigns a `seq` field to a value built by a function of the same module, and the properties are proved about those functions. The forms are classes too. Each form holds its own state and receives the store as a parameter.
- **Numbers and time.** Money is an unbounded `int`. Instants are integer milliseconds since the epoch, and a calendar day is a UTC day (`Vistas.DiaDe`).
- **Randomness.** `Math.random()` is a function `azar: nat -> real`. Every draw is in `[0, 1)`, and the draws are consumed in the order the source makes them.

Modules: `Wrappers`, `Lists` (filter, map-where, sum, find, remove), `Texto` (digits, lower case, accents), `Modelo`, `Vistas`, `Almacen`, `FormularioAbonos`, `FormularioCorreo`, `FormularioDeudas` and `Semillas`.

Where the comments in the source and its code disagree, the model follows the code:

- The seed list has 95 names, although its comment says 90.
- The abono seed draws `diasHastaProximo` from -5 to 9, although its comment says "+10".
- The debt seed draws its due day from 30 days ago to 29 days ahead, although its comment says "+30" (`Semillas.DeudaSemilla`).
- Every seeded abono includes the debts `'1'` and `'2'`, whatever their client. These ids always exist (`Semillas.AbonosReferencianDeudas`), but the two debts need not belong to that abono's client.
- In `AbonosForm`, choosing another client keeps the debts already ticked for the previous client.
- The debt table's "Vence hoy" label counts days as `Math.ceil` of the time difference. The dashboard's "due today" list counts calendar days. The two can disagree (`FormularioDeudas.EtiquetaDifiereDeVencenHoy`).

## Model

| member | source | states |
|---|---|---|
| Almacen.Cobranzas.constructor | src/hooks/useCobranzas.ts:116-129 | the store starts with the seed collections and the default mail configuration (port 587, report at 08:00, notifications on) |
| Almacen.Cobranzas.AgregarCliente | src/hooks/useCobranzas.ts:190-198 | the new client carries the given id and creation instant and the submitted data, and is appended after every existing client; the other slots are unchanged |
| Almacen.Cobranzas.ActualizarCliente | src/hooks/useCobranzas.ts:200-204 | the client list becomes `ActualizarClientes` of the old one; nothing else changes |
| Almacen.Cobranzas.EliminarCliente | src/hooks/useCobranzas.ts:206-209 | removes the client and, in the same step, every debt of that client; abonos and configuration are untouched |
| Almacen.Cobranzas.AgregarDeuda | src/hooks/useCobranzas.ts:211-218 | appends the new debt with the given id; nothing else changes |
| Almacen.Cobranzas.ActualizarDeuda | src/hooks/useCobranzas.ts:220-224 | the debt list becomes `ActualizarDeudas` of the old one; nothing else changes |
| Almacen.Cobranzas.EliminarDeuda | src/hooks/useCobranzas.ts:226-228 | the debt list loses exactly the debts with that id; nothing else changes |
| Almacen.Cobranzas.AgregarAbono | src/hooks/useCobranzas.ts:230-237 | appends the new abono with the given id; nothing else changes |
| Almacen.Cobranzas.ActualizarAbono | src/hooks/useCobranzas.ts:239-243 | the abono list becomes `ActualizarAbonos` of the old one; nothing else changes |
| Almacen.Cobranzas.EliminarAbono | src/hooks/useCobranzas.ts:245-247 | the abono list loses exactly the abonos with that id; nothing else changes |
| Almacen.Cobranzas.MarcarAbonoPagado | src/hooks/useCobranzas.ts:249-253 | the abono list becomes `MarcarPagado` of the old one; nothing else changes |
| Almacen.Cobranzas.ActualizarConfiguracionCorreo | src/hooks/useCobranzas.ts:255-257 | the configuration is replaced whole, not merged; the collections are unchanged |
| Almacen.ActualizarClientes | src/hooks/useCobranzas.ts:200-204 | same length; each client with the id gets the changes spread over it, every other client is kept at its position |
| Almacen.ActualizarDeudas | src/hooks/useCobranzas.ts:220-224 | same length; each debt with the id gets the changes spread over it, every other debt is kept at its position |
| Almacen.ActualizarAbonos | src/hooks/useCobranzas.ts:239-243 | same length; each abono with the id gets the changes spread over it, every other abono is kept at its position |
| Almacen.ActualizarIdDesconocido | src/hooks/useCobranzas.ts:200-243 | an update addressed to an id no record has leaves all three collections as they were |
| Almacen.MarcarPagado | src/hooks/useCobranzas.ts:249-253 | same length; each abono with the id becomes `Pagado` with its other fields kept, every other abono is unchanged |
| Almacen.MarcarPagadoIdempotente | src/hooks/useCobranzas.ts:249-253 | marking the same abono paid twice gives the same list as marking it once |
| Almacen.MarcarPagadoSoloCambiaEstado | src/hooks/useCobranzas.ts:249-253 | after marking, every abono with that id is `Pagado`, and every position differs from before at most in its status |
| Almacen.SinCliente | src/hooks/useCobranzas.ts:207 | a client survives exactly when its id differs from the deleted one |
| Almacen.SinDeudasDelCliente | src/hooks/useCobranzas.ts:208 | a debt survives exactly when it belongs to another client |
| Almacen.SinDeuda | src/hooks/useCobranzas.ts:226-228 | a debt survives exactly when its id differs from the deleted one |
| Almacen.SinAbono | src/hooks/useCobranzas.ts:245-247 | an abono survives exactly when its id differs from the deleted one |
| Almacen.EliminarConservaOrden | src/hooks/useCobranzas.ts:206-247 | every deletion distributes over concatenation, so the survivors keep their relative order |
| Almacen.CascadaEliminaDeudasDelCliente | src/hooks/useCobranzas.ts:206-209 | the cascade removes exactly the client's debts: survivors plus that client's debts account for every debt, and no survivor belongs to the client |
| Almacen.EliminarClienteConservaReferencias | src/hooks/useCobranzas.ts:206-209 | if every debt names an existing client before a client deletion, the same holds after it |
| Vistas.DeudasPendientes | src/hooks/useCobranzas.ts:133 | a debt is pending exactly when it is in the store and not `Pagada` |
| Vistas.CalcularResumen | src/hooks/useCobranzas.ts:132-144 | the profit is the amount to collect minus the costs, and it equals the sum of the pending debts' profits; the count is at most the number of debts |
| Vistas.ResumenAlAgregar | src/hooks/useCobranzas.ts:132-144 | adding an active debt raises each total by exactly that debt and the count by one; adding a paid debt leaves the summary unchanged |
| Vistas.ResumenSinDeudasActivas | src/hooks/useCobranzas.ts:132-144 | with no active debt every total and the count are zero |
| Vistas.DeudasActivasDe | src/hooks/useCobranzas.ts:149-151 | exactly the store's debts of that client that are not `Pagada` |
| Vistas.DeudasActivasDeConcatena | src/hooks/useCobranzas.ts:149-151 | the per-client filter distributes over concatenation, so a client's debts keep their store order |
| Vistas.ClientesConDeudas | src/hooks/useCobranzas.ts:147-158 | every listed client is a store client with at least one active debt, paired with its count and amount of active debts; every client with an active debt is listed |
| Vistas.ClientesConDeudasConcatena | src/hooks/useCobranzas.ts:147-158 | the view is built client by client, so it keeps the clients' order |
| Vistas.DiaSiguiente | src/hooks/useCobranzas.ts:176-177 | advancing an instant by one day moves it to the next calendar day |
| Vistas.MismoDia | src/hooks/useCobranzas.ts:161-172 | a truncated due date lies in the window `[start of today, start of tomorrow)` exactly when it falls on today's calendar day |
| Vistas.DeudasVencenHoy | src/hooks/useCobranzas.ts:161-172 | exactly the active debts whose due date falls on the current calendar day |
| Vistas.DeudasVencenManana | src/hooks/useCobranzas.ts:175-187 | exactly the active debts whose due date falls on the next calendar day |
| Vistas.VencimientosDisjuntos | src/hooks/useCobranzas.ts:161-187 | no debt is both due today and due tomorrow |
| Vistas.VencimientosConservanOrden | src/hooks/useCobranzas.ts:161-187 | both lists distribute over concatenation, so debts keep their store order |
| FormularioAbonos.DeudasDelCliente | src/components/AbonosForm.tsx:36-39 | no client selected gives no debts; otherwise exactly the client's debts that are not `Pagada` |
| FormularioAbonos.DeudasDelClienteConservaOrden | src/components/AbonosForm.tsx:36-39 | the checklist distributes over concatenation, so it lists the client's debts in store order |
| FormularioAbonos.CostoDe | src/components/AbonosForm.tsx:43-44 | the provider cost of the first debt with that id, or 0 when no debt has it |
| FormularioAbonos.MontoTotal | src/components/AbonosForm.tsx:42-45 | an empty selection totals 0; a single ticked debt totals that debt's provider cost (0 for an unknown id) |
| FormularioAbonos.MontoTotalSinDeudas | src/components/AbonosForm.tsx:42-45 | a selection of ids that name no debt totals 0 |
| FormularioAbonos.MontoTotalConcatena | src/components/AbonosForm.tsx:42-45 | the total of a concatenated selection is the sum of the totals of its parts |
| FormularioAbonos.MontoTotalNoNegativo | src/components/AbonosForm.tsx:42-45 | when no provider cost is negative, the total is not negative |
| FormularioAbonos.MontoTotalAlMarcar | src/components/AbonosForm.tsx:42-45 | ticking an unticked debt raises the total by exactly that debt's provider cost |
| FormularioAbonos.CalcularFechaProximoPago | src/components/AbonosForm.tsx:47-56 | the next payment falls a whole number of days after now, namely 1, 7, 15 or 30 for the frequency, so between one and thirty days ahead |
| FormularioAbonos.FechaProximoPagoSegunFrecuencia | src/components/AbonosForm.tsx:47-56 | for the same instant, one frequency schedules strictly earlier than another exactly when its period is shorter, and the scheduled date determines the frequency |
| FormularioAbonos.Alternar | src/components/AbonosForm.tsx:111-118 | an unticked id is appended; a ticked id is removed, which shortens the list; no other id changes state |
| FormularioAbonos.AlternarDosVecesRestaura | src/components/AbonosForm.tsx:111-118 | ticking and then unticking a debt gives back the selection |
| FormularioAbonos.AlternarSinDuplicados | src/components/AbonosForm.tsx:111-118 | toggling never introduces a repeated id |
| FormularioAbonos.DatosDelAbono | src/components/AbonosForm.tsx:74-84 | the submitted abono names the found client by id and name. It carries the form's frequency and selected debts, their total provider cost, and the next payment date for that frequency. It is `Pendiente` from now, and empty notes are stored as none |
| FormularioAbonos.Formulario.constructor | src/components/AbonosForm.tsx:27-34 | no client, monthly, nothing ticked, no notes |
| FormularioAbonos.Formulario.ResetForm | src/components/AbonosForm.tsx:27-34 | back to no client, monthly, nothing ticked, no notes |
| FormularioAbonos.Formulario.SeleccionarCliente | src/components/AbonosForm.tsx:149 | sets the client and leaves the ticked debts as they were |
| FormularioAbonos.Formulario.ToggleDeudaSeleccionada | src/components/AbonosForm.tsx:111-118 | the selection becomes `Alternar` of the old one |
| FormularioAbonos.Formulario.HandleSubmit | src/components/AbonosForm.tsx:58-101 | rejected iff no client or no debt is selected; gives up iff the client does not exist; a rejection changes nothing. Otherwise it appends a `Pendiente` abono with the given id for that client. The abono carries the first matching client's name, the form's frequency and selected debts, their total cost, the next payment date, and its notes, or none when they are empty. The form is then reset |
| FormularioAbonos.Formulario.HandleMarcarPagado | src/components/AbonosForm.tsx:103-109 | the store's abonos become `MarcarPagado` for that abono's id |
| FormularioCorreo.AgregarCorreo | src/components/ConfiguracionCorreo.tsx:46-70 | rejected as invalid iff empty or without '@'; rejected as repeated iff otherwise already listed; else appended at the end |
| FormularioCorreo.EliminarCorreo | src/components/ConfiguracionCorreo.tsx:72-77 | the address disappears entirely, every other address keeps its membership, and the list shrinks if it was there |
| FormularioCorreo.EliminarCorreoConservaOrden | src/components/ConfiguracionCorreo.tsx:72-77 | removal distributes over concatenation, so the remaining recipients keep their order |
| FormularioCorreo.EliminarCorreoAusente | src/components/ConfiguracionCorreo.tsx:72-77 | removing an address that is not listed leaves the list as it was |
| FormularioCorreo.AgregarConservaValidez | src/components/ConfiguracionCorreo.tsx:46-70 | adding keeps the list free of repeats and of entries without '@' |
| FormularioCorreo.EliminarConservaValidez | src/components/ConfiguracionCorreo.tsx:72-77 | removing keeps the list free of repeats and of entries without '@' |
| FormularioCorreo.AgregarYEliminarRestaura | src/components/ConfiguracionCorreo.tsx:46-77 | removing an address just added gives back the previous list |
| FormularioCorreo.Formulario.constructor | src/components/ConfiguracionCorreo.tsx:16-17 | the form starts as a copy of the store's configuration, with an empty address box |
| FormularioCorreo.Formulario.EscribirCorreo | src/components/ConfiguracionCorreo.tsx:168 | typing sets the address box only |
| FormularioCorreo.Formulario.AgregarCorreoDestino | src/components/ConfiguracionCorreo.tsx:46-70 | on rejection nothing changes; on success the recipient list becomes the extended list and the box is cleared |
| FormularioCorreo.Formulario.EliminarCorreoDestino | src/components/ConfiguracionCorreo.tsx:72-77 | the recipient list becomes `EliminarCorreo` of the old one; the rest of the form is unchanged |
| FormularioCorreo.Formulario.HandleSubmit | src/components/ConfiguracionCorreo.tsx:19-44 | saves iff server, user and sender are filled in; a save replaces the store's configuration by the form; the collections never change |
| FormularioDeudas.Validar | src/components/DeudasForm.tsx:46-63 | fails for missing fields iff client, date, amount or cost is empty; fails for an unknown client iff those are filled and no client has the id; otherwise yields the first store client with that id, the one `clientes.find` returns |
| FormularioDeudas.DatosDeDeuda | src/components/DeudasForm.tsx:66-74 | the debt names the chosen client id, copies the found client's current name, takes the parsed due date, amount and provider cost unchanged, keeps the form's status, and stores an empty description as none |
| FormularioDeudas.EdicionReescribeDeuda | src/components/DeudasForm.tsx:76-77 | saving an edit rewrites every field of the edited debt and keeps its id |
| FormularioDeudas.AgregarDesdeFormularioConservaReferencias | src/components/DeudasForm.tsx:55-88 | a debt added through the form names an existing client |
| FormularioDeudas.EditarDesdeFormularioConservaReferencias | src/components/DeudasForm.tsx:55-88 | a debt edited through the form names an existing client, so references stay valid |
| FormularioDeudas.Formulario.constructor | src/components/DeudasForm.tsx:19-28 | empty fields, status `Pendiente`, add mode |
| FormularioDeudas.Formulario.ResetForm | src/components/DeudasForm.tsx:30-41 | empty fields, status `Pendiente`, add mode |
| FormularioDeudas.Formulario.SeleccionarCliente | src/components/DeudasForm.tsx:176-182 | sets the client id and the first matching client's name, or no name when none matches; nothing else changes |
| FormularioDeudas.Formulario.HandleEdit | src/components/DeudasForm.tsx:101-113 | edit mode for the debt, with its fields written back as text and a missing description as empty |
| FormularioDeudas.Formulario.HandleSubmit | src/components/DeudasForm.tsx:43-99 | fails exactly when `Validar` fails, with its error and no change; otherwise updates the edited debt in full or appends a new one, then resets the dialog; clients, abonos and configuration never change |
| FormularioDeudas.Formulario.HandleDelete | src/components/DeudasForm.tsx:115-123 | the debt is removed when the user confirms, and nothing changes otherwise |
| FormularioDeudas.ColorGanancia | src/components/DeudasForm.tsx:304-329 | red exactly when the amount is below the provider cost, green exactly when the profit is not negative |
| FormularioDeudas.DiasVencimiento | src/components/DeudasForm.tsx:305 | the time to the due date rounded up to whole days: `(r-1)` days < difference <= `r` days |
| FormularioDeudas.DiasVencimientoUnico | src/components/DeudasForm.tsx:305 | any whole number of days meeting that bound is the rounded-up count, so `Math.ceil` is pinned down |
| FormularioDeudas.EtiquetaSegunInstantes | src/components/DeudasForm.tsx:336-346 | "overdue" iff due a day or more ago, "today" iff due within the last day, "tomorrow" iff due within the next day, "in n days" beyond that; the overdue count is the whole days elapsed |
| FormularioDeudas.EtiquetaDifiereDeVencenHoy | src/components/DeudasForm.tsx:305-344 | at 01:00, a debt due at 23:00 the same day is on the dashboard's list for today but its row says "Vence mañana" |
| FormularioDeudas.Etiqueta | src/components/DeudasForm.tsx:336-346 | "overdue by -d days" iff d < 0, "today" iff d = 0, "tomorrow" iff d = 1, "in d days" iff d > 1, carrying the day count shown |
| FormularioDeudas.VarianteEstado | src/components/DeudasForm.tsx:125-133 | the badge is "default" iff paid, "secondary" iff pending, "destructive" iff overdue, "outline" iff in progress |
| FormularioDeudas.ColorEstado | src/components/DeudasForm.tsx:135-143 | the text colour is green iff paid, blue iff pending, red iff overdue, yellow iff in progress |
| FormularioDeudas.EstadosDistinguibles | src/components/DeudasForm.tsx:125-143 | distinct statuses get distinct badge variants and distinct colours |
| Texto.NatToString | useCobranzas.ts:73 | a non-empty string of decimal digits, with no leading zero except for 0 itself |
| Texto.ParseNatToString | useCobranzas.ts:73 | reading the digits back gives the number (`toString` round-trips) |
| Texto.NatToStringInjective | useCobranzas.ts:73 | different numbers give different ids |
| Texto.IntToString | src/components/DeudasForm.tsx:107-108 | non-empty, starting with '-' exactly for negative numbers; the digits after the sign read back as the number's absolute value |
| Texto.Minusculas | useCobranzas.ts:74 | same length, with each character lower-cased |
| Texto.SinEspacios | useCobranzas.ts:74 | keeps exactly the characters that are not white space |
| Texto.SinEspaciosConcatena | useCobranzas.ts:74 | removing white space distributes over concatenation, so the other characters keep their order and number |
| Texto.SinEspaciosSinCambio | useCobranzas.ts:74 | a string without white space is kept whole |
| Texto.SinAcentos | useCobranzas.ts:74-77 | same length, with each accented lower-case vowel replaced by its plain vowel |
| Texto.Normalizar | useCobranzas.ts:74-77 | the local part holds no upper-case letter, no white space and no accented vowel, and contains '@' only if the name does |
| Texto.NormalizarIdempotente | useCobranzas.ts:74-77 | normalising twice is normalising once |
| Semillas.Sorteo | useCobranzas.ts:107 | `Math.floor(random * n)` lies in `[0, n)` and is the integer part of the product |
| Semillas.Truncar | useCobranzas.ts:86 | `new Date(x)` keeps the integer part of x, rounding toward zero |
| Semillas.Telefono | useCobranzas.ts:85 | a seeded phone is 16 characters: "+52 55 ", four digits worth 1000 to 9999, '-', and four more digits worth 1000 to 9999 |
| Semillas.EmailBienFormado | useCobranzas.ts:84 | a seeded email has exactly one '@', with the normalised name and index before it and the index-th domain (cyclically) after it |
| Semillas.ClienteSemilla | useCobranzas.ts:72-87 | the client at `index` has id `index+1`, keeps its name, gets the built email, and is created within the 365 days after 2024-01-01 |
| Semillas.GenerarClientes | useCobranzas.ts:47-89 | one client per name, id `index+1`, the name kept, the email built from it, created within the 365 days after 2024-01-01 |
| Semillas.ClientesIdsDistintos | useCobranzas.ts:72-73 | the seeded client ids are pairwise distinct |
| Semillas.EstadoSemilla | useCobranzas.ts:120-128 | a debt is seeded `Pagada` only when not yet due and the draw exceeds 0.8, and `En Proceso` only when over a week overdue |
| Semillas.MontoSemilla | useCobranzas.ts:111-113 | the amount is the cost plus a margin between 30% and 80%, rounded down |
| Semillas.DeudaSemilla | useCobranzas.ts:109-139 | the debt has the consecutive id, names its client, is due 30 days before to 29 days after now, and has a cost in 500..8499, a margin amount and a coherent status |
| Semillas.GenerarDeudasDeCliente | useCobranzas.ts:109-142 | exactly the requested number of debts, with consecutive ids, five draws each |
| Semillas.GenerarDeudas | useCobranzas.ts:92-146 | one to four debts per client in client order, each block generated for its client; the draw count matches the source's order of calls |
| Semillas.AbonoSemilla | useCobranzas.ts:156-178 | the abono has id `index+1`, names its client, covers debts '1' and '2', and has an amount in 1000..5999, a next payment 5 days before to 9 days after now and status `Pendiente` |
| Semillas.GenerarAbonosIniciales | useCobranzas.ts:149-182 | one abono for each of the first 18 clients (fewer if there are fewer clients), four draws each |
| Semillas.BordesCrecientes | useCobranzas.ts:103-141 | the block bounds never decrease from one client to a later one |
| Semillas.BloqueDe | useCobranzas.ts:105-143 | every debt index lies in exactly one client's block |
| Semillas.DeudasGeneradasValidas | useCobranzas.ts:103-141 | the seeded debt ids are "1", "2", … in order, and every seeded debt names a seeded client |
| Semillas.AbonosReferencianDeudas | useCobranzas.ts:172 | every debt id a seeded abono includes is the id of a seeded debt |
| Semillas.CobranzasIniciales | useCobranzas.ts:185-187 | the seeded store has 95 clients, 95 to 380 debts that all name a client, 18 abonos whose debt ids all exist, and the default configuration |
| Semillas.EjemploReferenciasValidas | src/hooks/useCobranzas.ts:46-115 | every sample debt of the hook names a sample client |
| Semillas.EjemploResumen | src/hooks/useCobranzas.ts:46-144 | the sample data gives 6000 to collect, 4100 of costs, 1900 of profit and 4 pending debts |
| Semillas.EjemploVencimientos | src/hooks/useCobranzas.ts:46-187 | of the sample debts, the first is due today and the second tomorrow |
| Lists.FilterAppend | src/hooks/useCobranzas.ts:206-247 | filtering distributes over concatenation |
| Lists.FilterPartition | src/hooks/useCobranzas.ts:206-209 | a filter and its complement together keep every element once |
| Lists.SumAppend | src/components/AbonosForm.tsx:42-45 | a sum over a concatenation is the sum of the parts |
| Lists.WithoutAppend | src/components/ConfiguracionCorreo.tsx:72-77 | removal distributes over concatenation, so the remaining elements keep their order |
| Lists.WithoutAbsent | src/components/ConfiguracionCorreo.tsx:72-77 | removing an element that does not occur changes nothing |
| Lists.Without | src/components/ConfiguracionCorreo.tsx:72-77 | the element is gone, the others keep their membership, the list shrinks if the element was present, and no repeats are introduced |

## Left out

- Local time zones and daylight saving time: calendar days are UTC days, so `setHours(0, 0, 0, 0)` is truncation to a multiple of 86 400 000 ms.
- Floating point: amounts are integers, and random draws are exact reals in `[0, 1)`. The seed amounts are floored to integers, as the source floors them.
- `parseFloat`, `new Date(text)` and `toISOString()` in `DeudasForm`: the parsed amount, cost and due date, and the `YYYY-MM-DD` text of a due date, are parameters of `HandleSubmit` and `HandleEdit`.
- `Date.now()` and `new Date()`: fresh ids and the current instant are parameters. Two reads of the clock within one action are taken as the same instant. Nothing assumes that a fresh id is unused.
- `toLowerCase`: only the Latin-1 capitals are folded: `A`–`Z` and `À`–`Þ` except `×`, which include `Ñ`, `Ç`, `Ø`, `Ð` and `Þ`. Capitals beyond Latin-1 are left as they are. Every seed name is within this range.
- Toasts, dialogs opening and closing, and `confirm()`: a rejection is an `Outcome` value, and the user's answer to the delete confirmation is the `confirmado` parameter.
- React itself: hooks, re-rendering, memoisation, and each component calling the hook separately and so getting its own store. Here every form is handed one store.
- The `try`/`catch` blocks of the three `handleSubmit`s: nothing inside them can throw in the model.
- The unreachable `default` branches of the status and frequency switches: the enumerations are closed datatypes.
- The dialog's profit preview and the number formatting (`toLocaleString`, `toLocaleDateString`): these are display only.
- Typing into the inputs other than the recipient address box: each method's contract holds whatever the field values are, so these inputs have no methods of their own.
- `enviarReportePrueba`: it only shows a message.
- `src/pages/Index.tsx` and `src/components/ClientesForm.tsx` are not part of this model.
- Budget allocation across debts and batch execution of payments: no file of this repository's core implements them.
