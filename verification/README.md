# contract-to-cash-flow, modelled in Dafny

This project models the back office of a water utility, from contract to cash. The application is a single-page React app. All of its state lives in one data context (`src/context/DataContext.tsx`), and each page adds to that state or patches it. The chain it supports runs:

- a feasibility request for a lot, decided by a committee;
- works opened on an approved request;
- service points ("tomas") on finished works;
- a contract on an available service point;
- a meter that activates the contract;
- a reading route;
- meter readings, classified against a 0–200 m³ envelope;
- consumptions, real or estimated, confirmed for billing;
- pre-invoices priced by the tariff engine, then validated and accepted;
- stamping of accepted pre-invoices by the PAC, the external certification provider;
- receipts for successful stampings;
- payments, and each contract's outstanding balance;
- the accounting totals and the dashboard counts over all of it.

The model is functional:

- The whole state is one immutable `Store` (module `Data`). It holds one sequence per collection, plus the shared identifier counter.
- Every context action (`addX`, `updateX`, `addContrato`, `addMedidor`, `addRuta`, `calcularTarifa`) is a pure function on the store.
- Every page handler is a function from store and form state to an `Option`:
  - `None` means the control is not on screen or is disabled;
  - a select only ever holds one of its options, which the model states as a `requires`.
- Sources of non-determinism are parameters:
  - each clock read is an ISO timestamp string, one parameter per read;
  - each `Math.random` draw is a real in [0, 1);
  - each PAC answer is a `Pac` value.

Modules, one per file:

- `Ids`: `genId` and the decimal and padding helpers it rests on.
- `Clock`: the date slices.
- `Order`: the string order the date sort uses.
- `Entities`: the records.
- `Records`: generic array operations.
- `Data`: the store, the seed data and the context actions.
- `Tariff`: the tariff table and `calcularTarifa`.
- One module per page: `Factibilidades`, `Construcciones`, `Tomas`, `Contratos`, `Medidores`, `Rutas`, `Lecturas`, `Consumos`, `PreFacturacion`, `Timbrado`, `Recibos`, `Pagos`, `Contabilidad`, `Dashboard`.

Three store invariants are carried through every action:

- `WellFormed`: each collection's identifiers are distinct, and each carries a counter value no greater than the current counter. So the next `genId` is fresh across all collections.
- `RouteSymmetric`: a contract names a route exactly when that route lists the contract.
- `RouteRefsIssued`: every route reference was issued by the counter.

## Model

| member | source | states |
|---|---|---|
| Ids.Decimal | src/context/DataContext.tsx:261 | the decimal rendering of n is a non-empty run of digits |
| Ids.PadStart | src/context/DataContext.tsx:261 | left padding with zeros to width w keeps the string as its suffix, pads with zeros only, and has length max(len, w) |
| Ids.ValueOfDecimal | src/context/DataContext.tsx:261 | reading the decimal rendering of n back as a number gives n |
| Ids.PaddedValue | src/context/DataContext.tsx:261 | zero padding to width 3 does not change the number read back |
| Ids.DigitSuffixOfGenId | src/context/DataContext.tsx:261 | the trailing digit run of a generated identifier is exactly its padded counter, even beyond three digits |
| Ids.GenIdShape | src/context/DataContext.tsx:261 | `Ids.GenId`: a generated identifier is its prefix followed by at least three decimal digits |
| Ids.NumOfGenId | src/context/DataContext.tsx:260-261 | the counter value can be read back from any generated identifier (round trip) |
| Ids.GenIdInjective | src/context/DataContext.tsx:260-261 | two generated identifiers are equal iff prefix and counter are both equal, so one shared counter gives unique identifiers across all collections |
| Ids.Issue | src/context/DataContext.tsx:260-261 | one `genId` call increments the counter and yields an identifier carrying the new value |
| Ids.GeneratedAboveSeeds | src/context/DataContext.tsx:155-214 | since the counter starts at 100, no generated identifier collides with a seed identifier `X001`–`X006` |
| Ids.SeedIdShape | src/context/DataContext.tsx:174-201 | the seed identifiers `CT001` and `TAR006` have `genId`'s shape, and `CT001` carries the number 1 |
| Clock.DatePart | src/pages/Factibilidades.tsx:24 | a record's date is the prefix of the timestamp up to its first 'T' |
| Clock.MonthPart | src/pages/Lecturas.tsx:39 | a period is the first seven characters of the timestamp, or the whole string when it is shorter |
| Clock.PeriodOfDate | src/pages/Lecturas.tsx:38-39 | for one ISO timestamp, the date has ten characters and the period is its first seven; the page reads the clock twice, so a reading's date and period agree only when both reads fall in one month (`Lecturas.CapturarPeriodFromSecondRead`) |
| Data.Activos | src/pages/Pagos.tsx:11 | exactly the active contracts are offered |
| Data.NextIdFresh | src/context/DataContext.tsx:260-261 | in a well-formed store, the next identifier of any prefix is carried by no record of any collection, and carries counter + 1 |
| Data.AddFactibilidad | src/context/DataContext.tsx:279 | appends the record under the next `F` identifier; only that collection and the counter change; well-formedness is kept |
| Data.AddConstruccion | src/context/DataContext.tsx:282 | the same for works, prefix `C` |
| Data.AddToma | src/context/DataContext.tsx:285 | the same for service points, prefix `T` |
| Data.AddLectura | src/context/DataContext.tsx:309 | the same for readings, prefix `L` |
| Data.AddConsumo | src/context/DataContext.tsx:312 | the same for consumptions, prefix `CO` |
| Data.AddPreFactura | src/context/DataContext.tsx:315 | the same for pre-invoices, prefix `PF` |
| Data.AddTimbrado | src/context/DataContext.tsx:318 | the same for stampings, prefix `TM` |
| Data.AddRecibo | src/context/DataContext.tsx:321 | the same for receipts, prefix `RB` |
| Data.AddPago | src/context/DataContext.tsx:324 | the same for payments, prefix `P` |
| Data.UpdateFactibilidad | src/context/DataContext.tsx:280 | patches every record with the identifier and leaves the others; with no such record the store is unchanged; well-formedness is kept by key-preserving patches |
| Data.UpdateConstruccion | src/context/DataContext.tsx:283 | as `UpdateFactibilidad`, for works |
| Data.UpdateToma | src/context/DataContext.tsx:286 | as `UpdateFactibilidad`, for service points |
| Data.UpdateContrato | src/context/DataContext.tsx:293 | as `UpdateFactibilidad`, for contracts |
| Data.UpdateMedidor | src/context/DataContext.tsx:300 | as `UpdateFactibilidad`, for meters |
| Data.UpdateRuta | src/context/DataContext.tsx:307 | as `UpdateFactibilidad`, for routes |
| Data.UpdateLectura | src/context/DataContext.tsx:310 | as `UpdateFactibilidad`, for readings |
| Data.UpdateConsumo | src/context/DataContext.tsx:313 | as `UpdateFactibilidad`, for consumptions |
| Data.UpdatePreFactura | src/context/DataContext.tsx:316 | as `UpdateFactibilidad`, for pre-invoices |
| Data.UpdateTimbrado | src/context/DataContext.tsx:319 | as `UpdateFactibilidad`, for stampings |
| Data.UpdateRecibo | src/context/DataContext.tsx:322 | as `UpdateFactibilidad`, for receipts |
| Data.AddContrato | src/context/DataContext.tsx:288-292 | appends the contract under the next `CT` identifier; when its `tomaId` is non-empty, every service point with that identifier becomes 'Asignada' and the others are untouched |
| Data.AddMedidor | src/context/DataContext.tsx:295-299 | appends the meter under the next `M` identifier; the contract(s) it names become 'Activo' and point at the new meter; every other contract is untouched |
| Data.AssignRuta | src/context/DataContext.tsx:305 | the per-member `updateContrato` calls stamp the route identifier on exactly the contracts listed, and leave the rest |
| Data.AddRuta | src/context/DataContext.tsx:302-306 | appends the route under the next `R` identifier, and points exactly the listed contracts at it |
| Data.AddRutaKeys | src/context/DataContext.tsx:302-306 | in a well-formed store the new route identifier is fresh, and stamping it on contracts keeps every collection's keys well formed |
| Data.AddRutaKeepsSymmetry | src/context/DataContext.tsx:302-306 | a route created over existing contracts that have no route keeps contract/route symmetry and issued references |
| Data.AddRutaSymmetric | src/context/DataContext.tsx:302-306 | the symmetry half: afterwards a contract names a route iff that route lists it |
| Data.AddRutaRefs | src/context/DataContext.tsx:302-306 | the reference half: every route reference, old or new, carries an issued number |
| Data.AddContratoKeepsSymmetry | src/context/DataContext.tsx:288-292 | adding a contract that names no route keeps symmetry and issued references |
| Data.SeedWellFormed | src/context/DataContext.tsx:155-214 | the seed data has distinct identifiers per collection, all numbered below the initial counter |
| Data.SeedRouteSymmetric | src/context/DataContext.tsx:174-184 | in the seed data, contract CT001 and route R001 name each other |
| Data.SeedRefNumbers | src/context/DataContext.tsx:175-183 | the seed's route and contract references carry the number 1 |
| Data.SeedRouteRefs | src/context/DataContext.tsx:174-184 | the seed's route references are issued |
| Data.SeedInvariants | src/context/DataContext.tsx:155-214 | the initial store satisfies all three store invariants |
| Data.NumberedKeysOk | src/context/DataContext.tsx:155-214 | a collection numbered 1, 2, … under one prefix has distinct keys below the initial counter |
| Records.PatchById | src/context/DataContext.tsx:280 | the shared shape of every `updateX`: a record is patched exactly where its key matches, every other record is kept, and the length is kept |
| Tariff.ClassOf | src/context/DataContext.tsx:327 | 'Doméstico' and 'Comercial' price as themselves; every other name, including misspellings, prices as Industrial |
| Tariff.ClassNameRoundTrip | src/context/DataContext.tsx:327 | a class's stored name maps back to the class |
| Tariff.ChosenIndex | src/context/DataContext.tsx:328-329 | the row used is the first applicable row in table order (same class, both bracket ends inclusive), or row 0 when none applies |
| Tariff.ChosenUnique | src/context/DataContext.tsx:328-329 | the chosen row is determined by table, class and volume |
| Tariff.CalcularTarifa | src/context/DataContext.tsx:326-332 | subtotal = volume × the chosen row's unit price; the fixed charge is that row's; total = subtotal + fixed charge |
| Tariff.CalcularSeed | src/context/DataContext.tsx:326-332 | `Tariff.Calcular`, the engine over the fixed tariff table, charges the chosen seed row: volume × its unit price plus its fixed charge |
| Tariff.SeedCoversWholeVolumes | src/context/DataContext.tsx:194-201 | in the seed table every whole volume 0–999 of each class falls in exactly one bracket |
| Tariff.SeedNoFallback | src/context/DataContext.tsx:194-201 | so for whole volumes 0–999 the fallback row is never used |
| Tariff.SeedDomestic15 | src/context/DataContext.tsx:194-201 | 15 m³ domestic costs 213 + 45 = 258 |
| Tariff.SeedGapFallsBack | src/context/DataContext.tsx:326-332 | 10.5 m³ domestic falls between brackets and is priced by row 0 |
| Tariff.SeedOverflowUsesFirstRow | src/context/DataContext.tsx:326-332 | 1000 m³ industrial falls off the table and is priced at the domestic first-bracket rate |
| Factibilidades.Create | src/pages/Factibilidades.tsx:23-26 | offered iff lot and applicant are non-empty (the button at line 67); appends a 'Pre-factibilidad' request with the form fields, dated today, under a fresh identifier |
| Factibilidades.Siguiente | src/pages/Factibilidades.tsx:86-95 | 'Pre-factibilidad' offers only "Enviar a comité"; 'En comité' offers only "Aprobar"/"Rechazar", which lead to a decided state; decided states offer nothing; every step advances one rank |
| Factibilidades.RunForward | src/pages/Factibilidades.tsx:86-95 | no sequence of clicks moves a request backwards, and a decided request stays as it is |
| Factibilidades.DecidedStays | src/pages/Factibilidades.tsx:86-95 | once a prefix of the clicks decides a request, the remaining clicks change nothing |
| Factibilidades.RunAppend | src/pages/Factibilidades.tsx:86-95 | running two click sequences one after the other is running their concatenation |
| Factibilidades.Transicionar | src/pages/Factibilidades.tsx:29-95 | the detail dialog's button patches only the request's state, iff the button is shown for its state; a missing identifier changes nothing; other requests are untouched |
| Construcciones.Aprobadas | src/pages/Construcciones.tsx:15 | exactly the approved feasibilities are offered as parents |
| Construcciones.Create | src/pages/Construcciones.tsx:17-21 | offered iff parent and name are filled in (line 63) and never when there is no approved feasibility (line 27); appends a 'Planeación' work on an approved feasibility |
| Construcciones.Siguiente | src/pages/Construcciones.tsx:41-42 | "Iniciar" only on 'Planeación', "Finalizar" only on 'En proceso', nothing on 'Finalizada'; each step advances one rank |
| Construcciones.Transicionar | src/pages/Construcciones.tsx:41-42 | the row button changes only that work's state, iff it is shown |
| Tomas.Finalizadas | src/pages/Tomas.tsx:15 | exactly the finished works are offered as parents |
| Tomas.Create | src/pages/Tomas.tsx:17-21 | offered iff construction, location and kind are given (line 65) and never without a finished work (line 27); appends a 'Disponible' service point on a finished work, leaving existing ones alone |
| Contratos.Disponibles | src/pages/Contratos.tsx:27 | exactly the available service points are offered |
| Contratos.Handle | src/pages/Contratos.tsx:42-145 | wizard guards: opening needs the wizard closed (its button lies behind the dialog) and an available service point; "Siguiente" needs the step's fields; "Atrás" only on steps 2–3; "Crear" only on step 3; only available points can be chosen; only "Crear" changes the store, and it resets the wizard; the step invariant is kept |
| Contratos.CrearSubmitsComplete | src/pages/Contratos.tsx:29-34 | "Crear contrato" submits a complete contract: 'Pendiente de alta' with no meter and no route, and its service point becomes 'Asignada' |
| Contratos.RunKeepsWizard | src/pages/Contratos.tsx:90-145 | whatever the user does, the wizard stays on steps 1–3 with every step behind it complete |
| Contratos.RunKeepsStore | src/pages/Contratos.tsx:29-30 | any run of wizard events keeps the store's invariants |
| Medidores.Pendientes | src/pages/Medidores.tsx:16 | exactly the contracts awaiting activation are offered |
| Medidores.Create | src/pages/Medidores.tsx:18-22 | offered iff contract and serial are given (line 77) and never without a pending contract (line 28); the meter is 'Activo' with the typed baseline; its contract was pending and becomes 'Activo' pointing at the meter; other contracts are untouched; only meters and contracts change and exactly one identifier is issued |
| Medidores.Flip | src/pages/Medidores.tsx:52-53 | the button always switches to the other state |
| Medidores.Toggle | src/pages/Medidores.tsx:52-53 | only that meter's state changes; contracts are not touched |
| Medidores.ToggleTwice | src/pages/Medidores.tsx:52-53 | switching a meter twice restores the store (an involution) |
| Rutas.Ofrecidos | src/pages/Rutas.tsx:14 | exactly the active contracts without a route (an empty `rutaId` counts as none) are offered |
| Rutas.Toggle | src/pages/Rutas.tsx:22-29 | flips the membership of the identifier, leaves every other membership alone, and keeps the list duplicate-free |
| Rutas.ToggleTwice | src/pages/Rutas.tsx:22-29 | ticking twice restores the selection; when the box was clear it restores the list exactly |
| Rutas.Marcar | src/pages/Rutas.tsx:66-68 | a tick is possible iff the dialog is open and the contract is offered |
| Rutas.MarcarKeepsSelection | src/pages/Rutas.tsx:62-71 | the selection stays duplicate-free and made of offered contracts |
| Rutas.Create | src/pages/Rutas.tsx:16-20 | offered iff zone and reader are given (line 75); the route lists the selection, exactly the selected contracts point at it, and the dialog closes cleared; only routes and contracts change and exactly one identifier is issued |
| Rutas.SelectedUnrouted | src/pages/Rutas.tsx:14 | with distinct contract identifiers, every selected identifier names an existing contract that has no route |
| Rutas.CreateKeepsSymmetry | src/pages/Rutas.tsx:16-20 | creating a route from a consistent selection keeps contract/route symmetry |
| Lecturas.Latest | src/pages/Lecturas.tsx:21 | the contract's reading that the stable descending sort by date puts first (latest date, earliest stored among ties); None iff the contract has no reading |
| Lecturas.LatestUnique | src/pages/Lecturas.tsx:21 | that reading is unique |
| Lecturas.Anterior | src/pages/Lecturas.tsx:19-22 | the latest reading's value; with no reading, the first meter's baseline; with neither, 0 |
| Lecturas.Clasificar | src/pages/Lecturas.tsx:23-37 | consumption = current − previous; 'Válida' iff 0 ≤ consumption ≤ 200; an operator note wins, otherwise 'Fuera de rango' exactly for an invalid reading |
| Lecturas.RutaSeleccionada | src/pages/Lecturas.tsx:15 | the route found has the chosen identifier; None iff no route has it |
| Lecturas.RutaContratos | src/pages/Lecturas.tsx:16 | exactly the contracts the route lists |
| Lecturas.ElegirRutaAsWritten | src/pages/Lecturas.tsx:58 | the route select as written: the route changes and the chosen contract is kept |
| Lecturas.ElegirRuta | src/pages/Lecturas.tsx:58 | the corrected select: choosing a route clears the contract |
| Lecturas.ElegirContrato | src/pages/Lecturas.tsx:63-67 | a contract can be chosen iff a route is found and lists it |
| Lecturas.Escribir | src/pages/Lecturas.tsx:70-71 | the text boxes change only value and note |
| Lecturas.Capturar | src/pages/Lecturas.tsx:18-45 | offered iff a route is found, a contract chosen and a value typed (line 75); appends a classified, never pending, reading with the route, contract, previous value, the date of one clock read and the month of a second read (lines 38-39); clears contract, value and note and keeps the route |
| Lecturas.CapturarPeriodFromSecondRead | src/pages/Lecturas.tsx:38-39 | the date comes from the first clock read and the period from the second; the period is the date's month iff both reads fall in the same month |
| Lecturas.AcrossMonths | src/pages/Lecturas.tsx:38-39 | reads at 2025-01-31T23:59:59.999Z and 2025-02-01T00:00:00.000Z are timestamps whose months differ, so a capture made across that boundary stores date 2025-01-31 with period 2025-02 |
| Lecturas.PanelEventsKeepOk | src/pages/Lecturas.tsx:58-75 | with the corrected select, a chosen contract is always on the chosen route |
| Lecturas.CapturedContractOnRoute | src/pages/Lecturas.tsx:30-33 | under that invariant, every captured reading names a contract its recorded route lists |
| Lecturas.StaleContractCounterexample | src/pages/Lecturas.tsx:58 | as written: route R001, contract CT001, then route R101 and value 20 records CT001 on R101, which does not list it |
| Lecturas.CorrectedClearsContract | src/pages/Lecturas.tsx:58 | corrected: the same clicks leave no contract chosen, so capture is disabled |
| Consumos.FormInicialOk | src/pages/Consumos.tsx:10-12 | the panel starts with no contract chosen and the kind on 'Promedio histórico', one the select offers |
| Consumos.ElegirTipo | src/pages/Consumos.tsx:66-73 | the kind select offers every kind but 'Real' |
| Consumos.Estimar | src/pages/Consumos.tsx:17-28 | offered iff contract and volume are given (line 75); appends an unconfirmed estimate of an active contract, with no reading and the current month; clears contract and volume and keeps the kind |
| Consumos.Confirmar | src/pages/Consumos.tsx:50 | shown iff unconfirmed; sets only that flag; a confirmed consumption is never unconfirmed |
| PreFacturacion.Listos | src/pages/PreFacturacion.tsx:8 | exactly the confirmed consumptions whose contract has no pre-invoice for their period |
| PreFacturacion.Generar | src/pages/PreFacturacion.tsx:10-23 | no contract with that identifier: nothing changes; otherwise appends a 'Pendiente' pre-invoice with the contract, period, volume and no discount, after which the consumption is no longer offered |
| PreFacturacion.Pricing | src/pages/PreFacturacion.tsx:13-22 | the pre-invoice carries the consumption's contract, period and volume, no discount and 'Pendiente', and its amounts are what the seed table charges for the contract's service class |
| PreFacturacion.GenerarPrices | src/pages/PreFacturacion.tsx:11-13 | the amounts are those of the tariff engine for the first contract with the identifier, by its service class |
| PreFacturacion.CalcularPriced | src/context/DataContext.tsx:326-332 | the engine prices a stored service class by that class's rows |
| PreFacturacion.GenerarKeepsPeriodosUnicos | src/pages/PreFacturacion.tsx:8-23 | generating never bills one contract twice for one period |
| PreFacturacion.AppendKeepsUnicos | src/pages/PreFacturacion.tsx:8-23 | appending a pre-invoice for an unbilled contract and period keeps them unique |
| PreFacturacion.Siguiente | src/pages/PreFacturacion.tsx:57-58 | "Validar" on 'Pendiente', "Aceptar" on 'Validada', nothing on 'Aceptada'; one rank forward |
| PreFacturacion.Transicionar | src/pages/PreFacturacion.tsx:57-58 | shown iff not accepted; only states change, never amounts; the row advances one rank |
| PreFacturacion.TransicionarOneRow | src/pages/PreFacturacion.tsx:57-58 | with distinct identifiers exactly that row moves; no row moves back |
| Timbrado.Aceptadas | src/pages/TimbradoPage.tsx:8 | exactly the accepted pre-invoices not yet referenced by a stamping, with distinct identifiers |
| Timbrado.Uuid | src/pages/TimbradoPage.tsx:15 | empty iff the provider failed; otherwise "UUID-" followed by the stamp |
| Timbrado.Estado | src/pages/TimbradoPage.tsx:16 | 'Timbrada OK' iff the provider succeeded, 'Error PAC' iff it failed |
| Timbrado.Timbrar | src/pages/TimbradoPage.tsx:10-20 | appends one stamping for the pre-invoice whose uuid, state and error agree with the answer; the pre-invoice is then referenced and no longer offered |
| Timbrado.TimbrarKeepsInvariants | src/pages/TimbradoPage.tsx:8-20 | stamping an unreferenced pre-invoice keeps "one stamping per pre-invoice" and "uuid, state and error agree" |
| Timbrado.ReferencedAfterTimbrar | src/pages/TimbradoPage.tsx:8-20 | afterwards exactly the previously referenced identifiers and the stamped one are referenced |
| Timbrado.TimbrarTodas | src/pages/TimbradoPage.tsx:37 | "Timbrar todas" adds one stamping per listed pre-invoice, each call with its own answer and clock read, and changes nothing else |
| Timbrado.TimbrarAppendsOne | src/pages/TimbradoPage.tsx:12-19 | one call appends exactly one stamping recording the answer |
| Timbrado.TimbrarTodasAppends | src/pages/TimbradoPage.tsx:10-37 | the stampings are appended in list order, one per pre-invoice with its answer and the date of its own clock read; the earlier ones are kept |
| Timbrado.TimbrarTodasKeepsInvariants | src/pages/TimbradoPage.tsx:37 | over distinct unreferenced pre-invoices the invariants hold, old references stay, and every listed one is referenced |
| Timbrado.TimbrarTodasOnce | src/pages/TimbradoPage.tsx:37 | "Timbrar todas" stamps every offered pre-invoice exactly once and none stays offered |
| Timbrado.Reintentar | src/pages/TimbradoPage.tsx:55-63 | shown iff the stamping failed; rewrites that record in place with the new answer ('Reintento fallido' on failure), keeping identifiers and date |
| Timbrado.ReintentarKeepsInvariants | src/pages/TimbradoPage.tsx:55-63 | a retry keeps both stamping invariants |
| Recibos.TimbradosOK | src/pages/Recibos.tsx:7 | exactly the successful stampings without a receipt are offered |
| Recibos.Round | src/pages/Recibos.tsx:13-14 | `Math.round` lands within half a unit of its argument |
| Recibos.Generar | src/pages/Recibos.tsx:9-19 | appends an unprinted receipt with no instalments, a current balance 100–600 and an overdue balance 0–200; the stamping is then no longer offered |
| Recibos.GenerarKeepsOnePerTimbrado | src/pages/Recibos.tsx:7-19 | at most one receipt per stamping is kept |
| Recibos.Imprimir | src/pages/Recibos.tsx:53 | shown iff unprinted; changes only the printed flag; a printed receipt stays printed |
| Pagos.Registrar | src/pages/Pagos.tsx:13-22 | offered iff contract, amount and kind are given (line 57); appends the payment of an active contract, dated today, and clears the form |
| Pagos.RegistrarSaldo | src/pages/Pagos.tsx:24-31 | a payment lowers its own contract's balance by the amount and no other balance |
| Pagos.Saldo | src/pages/Pagos.tsx:26-30 | a contract with no receipts and no payments has balance zero; its partner `Pagos.RegistrarSaldo` shows a payment lowers exactly its contract's balance by the amount |
| Pagos.Adeudos | src/pages/Pagos.tsx:25-31 | an entry is listed iff it is an active contract with its balance and that balance is positive |
| Pagos.AdeudosInStoreOrder | src/pages/Pagos.tsx:25-31 | the list equals the contract-by-contract construction in store order |
| Contabilidad.TotalFacturado | src/pages/Contabilidad.tsx:8 | the filtered sum equals the sum where pending and validated pre-invoices count as zero |
| Contabilidad.TotalCobrado | src/pages/Contabilidad.tsx:9 | with non-negative payment amounts the collected total is non-negative; its partner `Contabilidad.RegistrarRaisesCobrado` shows a payment raises it by exactly the amount |
| Contabilidad.TotalTimbrado | src/pages/Contabilidad.tsx:10 | at most the number of stampings |
| Contabilidad.RegistrarRaisesCobrado | src/pages/Contabilidad.tsx:8-10 | a payment raises the collected total by its amount and leaves the invoiced and stamped totals |
| Contabilidad.ReintentarTotals | src/pages/Contabilidad.tsx:8-10 | a retry raises the stamped count by one on success, leaves it on failure, and leaves the money totals |
| Contabilidad.TransicionarFacturado | src/pages/Contabilidad.tsx:8-10 | accepting adds the pre-invoice's total to the invoiced total; validating adds nothing |
| Contabilidad.GenerarKeepsFacturado | src/pages/Contabilidad.tsx:8 | a fresh 'Pendiente' pre-invoice does not change the invoiced total |
| Dashboard.FactPendientes | src/pages/Dashboard.tsx:28 | at most the number of requests, and zero iff no request is in 'Pre-factibilidad' or 'En comité' |
| Dashboard.ContratosPendientes | src/pages/Dashboard.tsx:29 | at most the number of contracts, and zero iff none is 'Pendiente de alta' |
| Dashboard.LecturasPendientes | src/pages/Dashboard.tsx:30 | at most the number of readings, and zero iff none is 'Pendiente' |
| Dashboard.ErrorTimbrado | src/pages/Dashboard.tsx:31 | at most the number of stampings, and zero iff none is 'Error PAC' |
| Dashboard.TotalContratos | src/pages/Dashboard.tsx:32 | at most the number of contracts, and zero iff none is 'Activo' |
| Dashboard.FactPendientesSplit | src/pages/Dashboard.tsx:28 | pending requests plus decided requests account for every request |
| Dashboard.ContratosBound | src/pages/Dashboard.tsx:29-32 | pending-activation plus active contracts never exceed all contracts |
| Dashboard.CapturarKeepsPendientes | src/pages/Dashboard.tsx:30 | capturing a reading never changes the pending-readings count |
| Dashboard.StampingsSplit | src/pages/Dashboard.tsx:31 | with agreeing stampings, errors on the dashboard plus stamped in accounting equal all stampings |
| Dashboard.Recientes | src/pages/Dashboard.tsx:93 | the first five contracts in store order, or all when fewer |
| Dashboard.RecientesIgnoreNew | src/pages/Dashboard.tsx:93 | once five contracts exist, a new one never shows in the table |

## Left out

- Descuentos: the discount table is seeded but never read by the core; `descuento` is always 0.
- The simulator, tariff listing, status badge, routing and layout files: these are views over the modelled state.
- Number parsing: `Number(...)` of typed text (and NaN for garbage) is not modelled. A typed box is `Some(value)`, an empty one `None`.
- Lecturas.Capturar: the typed reading is an integer; fractional readings are not modelled.
- Floating point: money and volumes are exact `real`s, so the tariff amounts and totals ignore IEEE rounding; `toFixed(2)` display is not modelled.
- Clock and randomness: every clock read and every random draw is a parameter of its own, so two reads in one handler may differ. The receipt due date (`now + 30 days`) is a string parameter.
- Recibos.Generar: states the balances from the draws; it does not model the date arithmetic of the due date.
- The `useData` error when used outside the provider, React batching, StrictMode double calls and re-render timing.
- `localeCompare` on dates is modelled as plain lexicographic order, which coincides for ISO dates but not for arbitrary strings.
- Rutas.ToggleTwice: when the box was ticked, ticking twice restores the selection but not the order (the identifier comes back at the end).
- Contratos.Handle: "Crear" from a wizard state outside the step invariant would fill missing selects with defaults; such states are unreachable (`RunKeepsWizard`).
- The detail dialogs, history tables, contract filter chips and other read-only views.
- The unused `lecturasValidas` list of the consumption page.
- The simulated accounting buttons ("Generar pólizas", "Enviar a SAP"), which change no state.
- The `?new=1` link that opens a creation dialog is modelled only for the contract wizard (`AbrirEnlace`).

## Findings

| source | as written | input that shows it | evidently intended | confidence | as-written member | corrected member |
|---|---|---|---|---|---|---|
| src/pages/Lecturas.tsx:58 | the route select sets only the route; the contract chosen on the previous route stays chosen and the capture button stays enabled | choose route R001, contract CT001, then route R101 (which lists no contract) and type 20: the reading is recorded for CT001 on R101 | changing the route clears the chosen contract, so every reading names a contract on its route | medium, not executed | Lecturas.ElegirRutaAsWritten, Lecturas.StaleContractCounterexample | Lecturas.ElegirRuta, Lecturas.PanelEventsKeepOk, Lecturas.CapturedContractOnRoute |
