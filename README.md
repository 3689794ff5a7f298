# Checklist and training-evaluation workflows, in Dafny

The repository holds several Flask and FastAPI prototypes of one application. Operators and trainees fill in checklists about equipment or training days. Managers, coordinators and validators sign them off. The prototypes also export the results as spreadsheets and PDFs, and e-mail an alert when something fails. This project models the business rules inside the route handlers:

- **The training programme of AlineLSL.** A thirty-day daily schedule and a four-week weekly schedule are generated at onboarding. Starting a sheet seeds its answers. A fill upserts the answers and stores the signature data URLs. No validation passes while a sheet is 'Aprovado' or 'Reprovado'; a later fill sets it back to 'Concluído' and reopens it.
- **The multi-validator log of MarcelaLSL.** Each validator signs at most once. Only approval roles may sign. Templates are numbered and toggled. The spreadsheet carries one copy of the base row per answer, with numbered validator columns.
- **The training blueprints of checklist_app.** The weekly score passes at 8 points. The admin gate, the item parsing, the sector, user and report rules, and the dashboard sets are all modelled.
- **The equipment application** (app/ and its copy checklist_system/):
  - A checklist is non-conforming when some answer is "Não".
  - Each manager sees the pending list of their own sector.
  - The validated status is recorded.
  - Alert recipients are chosen and one alert row is written per recipient.
- **checklist_mvp.** Covers the upload check, the submission with its failure list and alert, the history filter, the spreadsheet export and the PDF status.
- **LSL.** Covers the default template, the item fill, the signatures, the spreadsheet and the PDF cursor.
- **sistema_checklist, a FastAPI service.** Covers user lookup and creation, the token dependencies, paging, checklist submission, and the manager-only report export.

The database is a class per application, holding one sequence per table and an id counter for the autoincrement keys. Handlers that change it are methods with `modifies` clauses, and each method states the whole new state. Loops that only build values are methods proved against a specification function. Properties of those functions are lemmas.

Some things become parameters instead of being modelled:
- the request form (a map)
- the clock (a day number or a microsecond count)
- base64 decoding (a function that may fail)
- password hashing and JWT decoding
- `secure_filename` and the fresh UUIDs

Shared pieces:
- `Common` holds Python's string and list helpers.
- `Ordering` holds the newest-first sort.
- `SignatureDataUrl` holds the data-URL split and the padding repair.
- `Joins` holds the one-to-many flattening that every spreadsheet export shares.

## Model

| member | source | states |
|---|---|---|
| AlineRoutes.NewInstance | AlineLSL/checklist_app/routes.py:199-211 | a freshly scheduled or started instance: in progress, nothing signed |
| AlineRoutes.DailyPlan | AlineLSL/checklist_app/routes.py:199-211 | day k+1 of the training, dated start+k, in week k div 7 + 1 |
| AlineRoutes.WeeklyPlan | AlineLSL/checklist_app/routes.py:214-227 | week k+1 of the training, dated start+7k, with no day number |
| AlineRoutes.DailyPlanShape | AlineLSL/checklist_app/routes.py:199-211 | thirty instances for the employee, leader and evaluator, in progress on the daily template; day numbers 1..30 on consecutive dates; week numbers (i-1) div 7 + 1 between 1 and 5, never decreasing |
| AlineRoutes.WeeklyPlanShape | AlineLSL/checklist_app/routes.py:214-227 | four instances on the weekly template, weeks 1..4, no day number, fill dates seven days apart |
| AlineRoutes.BuildDailySchedule | AlineLSL/checklist_app/routes.py:199-212 | the loop builds exactly the daily plan |
| AlineRoutes.BuildWeeklySchedule | AlineLSL/checklist_app/routes.py:214-227 | the loop builds exactly the weekly plan |
| AlineRoutes.PlansFresh | AlineLSL/checklist_app/routes.py:199-229 | the 34 instances take consecutive fresh ids and checklist numbers, so the instance table stays ordered by id |
| AlineRoutes.AppendFresh | AlineLSL/checklist_app/routes.py:199-229 | appending instances drawn from fresh counter values keeps ids and numbers increasing |
| AlineRoutes.UpdateKeepsIncreasing | AlineLSL/checklist_app/routes.py:355-390 | rewriting an instance's columns in place keeps the table's ids and numbers increasing |
| AlineRoutes.Store.RegisterEmployee | AlineLSL/checklist_app/routes.py:163-235 | Denied exactly for a non-Administrador; Failed, with nothing added, exactly when the start date is absent or the employee row cannot commit (an absent name, position, matricula or sector, or a taken matricula); otherwise the employee is committed first and stays; MissingTemplates, with no instance, exactly when the daily or weekly template is missing; ScheduleFailed, with no instance, exactly when both exist but the leader or evaluator is absent; otherwise Done, and the daily and then the weekly plan are appended |
| AlineRoutes.Store.AddSchedule | AlineLSL/checklist_app/routes.py:199-229 | the daily and weekly plans are appended together and the counters advance by 34 |
| AlineRoutes.SeedAnswers | AlineLSL/checklist_app/routes.py:290-298 | one answer per template item, in item order, each 'NSP' with an empty comment |
| AlineRoutes.Store.StartInstance | AlineLSL/checklist_app/routes.py:266-306 | NotFound exactly for an unknown template or employee; Failed exactly when both are found but the leader or evaluator id is absent (the NOT NULL commit fails and is rolled back); both change nothing; otherwise one new in-progress instance dated today and one 'NSP' answer per template item are appended |
| AlineRoutes.AnswerFor | AlineLSL/checklist_app/routes.py:331-334 | the first answer row of the (instance, item) pair, or none when no row matches |
| AlineRoutes.Upsert | AlineLSL/checklist_app/routes.py:331-346 | after the step the pair has a row holding the submitted answer and comment; the table grows by at most one row; every other pair's row and other instances' rows are untouched |
| AlineRoutes.UpsertAll | AlineLSL/checklist_app/routes.py:327-346 | the fill adds at most one row per item and leaves other instances' rows as they were |
| AlineRoutes.UpsertAllCovers | AlineLSL/checklist_app/routes.py:327-346 | after the fill every template item has a row for the instance holding exactly the submitted answer and comment, whether the row existed or was created |
| AlineRoutes.UpsertAllStep | AlineLSL/checklist_app/routes.py:327-346 | the fill over one more item is the fill over the earlier items followed by that item's upsert |
| AlineRoutes.Store.FillAnswers | AlineLSL/checklist_app/routes.py:327-346 | the loop leaves the answers table equal to the upsert of every item |
| AlineRoutes.Store.UpsertAnswer | AlineLSL/checklist_app/routes.py:331-346 | an existing row is updated in place, or one row is added |
| AlineRoutes.FilledSignature | AlineLSL/checklist_app/routes.py:348-388 | a stored signature comes from a present field that contains 'data:image' and a comma, and it is the decode of the padding-repaired text after the first comma; everything else is stored as none |
| AlineRoutes.UnrepairablePayloadStoredAsNone | AlineLSL/checklist_app/routes.py:351-358 | a payload whose length is 1 more than a multiple of four cannot be repaired; a strict decoder refuses it and the signature is stored as none |
| AlineRoutes.Filled | AlineLSL/checklist_app/routes.py:348-390 | the instance's status becomes 'Concluído'; an absent signature field clears its column; identity and the coordinator's columns are kept |
| AlineRoutes.Store.Fill | AlineLSL/checklist_app/routes.py:309-399 | NotFound exactly for an unknown instance; Failed exactly when the instance's template is missing; Done otherwise, and then the answers are upserted for every item of the template and the instance is replaced by its filled form; nothing changes on NotFound or Failed |
| AlineRoutes.ValidationGate | AlineLSL/checklist_app/routes.py:420-449 | an 'Aprovado' or 'Reprovado' instance is refused first, then a role other than Coordenação or Administrador, then a missing or non-'data:image' signature; it passes exactly when none of these holds |
| AlineRoutes.ValidatedInstanceIsFinal | AlineLSL/checklist_app/routes.py:420-423 | while the status is 'Aprovado' or 'Reprovado', every validation is refused as already validated |
| AlineRoutes.FillReopensValidation | AlineLSL/checklist_app/routes.py:309-391 | the fill does not check the status and sets 'Concluído', so after a fill of an approved or rejected sheet a coordinator's validation with a 'data:image' signature passes the gate it was refused at before |
| AlineRoutes.Store.Validate | AlineLSL/checklist_app/routes.py:415-468 | a refused gate or a failed decode changes nothing; otherwise the coordinator's signature, comment and the submitted status are written |
| Common.FormGet | AlineLSL/checklist_app/routes.py:337-338 | `form.get(key)`: present exactly when the key was submitted, and then the submitted value |
| Common.FormGetOr | MarcelaLSL/checklist_app/routes.py:196-197 | `form.get(key, default)`: the submitted value when the key is present, the default otherwise |
| Common.OrDefault | MarcelaLSL/checklist_app/routes.py:425 | `value or default`: a present non-empty value is kept, an absent or empty one reads as the default |
| Common.Filter | checklist_mvp/app/routes.py:165-174 | a `.filter(...)` keeps exactly the rows satisfying the test, never more rows than the table and each row no more often than the table |
| Common.FilterFilter | checklist_mvp/app/routes.py:165-174 | narrowing a query by a second `.filter` keeps the same rows as one filter on both conditions, in the same order |
| Common.NarrowFilter | checklist_app/blueprints/admin.py:158-167 | a query narrowed by a second filter equals the filter by the conjunction of the two tests |
| Common.IndexWhere | sistema_checklist/app/crud.py:8-10 | `.filter_by(...).first()`: the position of a matching row with no matching row before it, or none when no row matches |
| Common.FirstWhere | sistema_checklist/app/crud.py:8-10 | `.first()` returns a matching row of the table, or none when no row matches |
| Common.NatToString | MarcelaLSL/checklist_app/routes.py:413-417 | `str(n)` of a natural number is a non-empty string of decimal digits |
| Common.DecimalRoundTrip | MarcelaLSL/checklist_app/routes.py:413-417 | reading back a printed number gives the number |
| Common.NatToStringInjective | MarcelaLSL/checklist_app/routes.py:413-417 | distinct numbers print differently, so the numbered column names `..._{i+1}` never collide |
| Common.Strip | checklist_app/blueprints/admin.py:88-89 | `strip()`: the result is the text that starts where the leading whitespace ends, and only whitespace follows it; it has no whitespace at either end, and an already stripped string is unchanged |
| Ordering.InsertDesc | checklist_mvp/app/routes.py:176 | inserting a row into a newest-first list keeps it newest first, with the same rows plus the new one |
| Ordering.SortDesc | checklist_mvp/app/routes.py:176 | `order_by(... .desc())`: newest first, and a permutation of the input rows |
| Ordering.SortDescSameRows | app/routes.py:171-174 | sorting neither adds nor drops a row |
| SignatureDataUrl.SplitHeader | AlineLSL/checklist_app/routes.py:351 | `url.split(",", 1)` fails exactly when there is no comma, and otherwise gives a comma-free header and the rest, which rejoin to the URL |
| SignatureDataUrl.SplitHeaderRoundTrip | AlineLSL/checklist_app/routes.py:351 | splitting a comma-free header joined to any payload gives both back |
| SignatureDataUrl.RepairPadding | AlineLSL/checklist_app/routes.py:352-354 | the repaired payload is the original followed by '=' only, fewer than four of them, and its length is a multiple of four; a payload already a multiple of four long is unchanged |
| SignatureDataUrl.RepairPaddingIdempotent | AlineLSL/checklist_app/routes.py:352-354 | repairing twice is repairing once |
| SignatureDataUrl.RepairCanonicalExactly | AlineLSL/checklist_app/routes.py:352-355 | for a payload of base64 alphabet characters the repair yields canonical base64 (RFC 4648, section 4) exactly when the length is not 1 more than a multiple of four |
| SignatureDataUrl.DecodeDataUrl | AlineLSL/checklist_app/routes.py:451-456 | the split-repair-decode step: no comma gives none; with a comma, the result is exactly the decoder's verdict on the padding-repaired text after the first comma |
| SignatureDataUrl.DecodeDataUrlUnrepaired | LSL/checklist_app/routes.py:69-70 | the split-decode step without repair: no comma gives none; with a comma, the result is exactly the decoder's verdict on the text after the first comma |
| SignatureDataUrl.DecodeHeaderPayload | AlineLSL/checklist_app/routes.py:451-456 | for a comma-free header and any payload, the repaired decode is the decoder's verdict on the repaired payload and the unrepaired decode its verdict on the payload itself |
| SignatureDataUrl.DecodeWellSizedPayload | AlineLSL/checklist_app/routes.py:351-355 | a payload already a multiple of four long decodes the same with or without the repair |
| EquipmentModels.RoleName | checklist_system/app/models.py:14-17 | a cargo's member name is one of COLABORADOR, GESTOR and COORDENADOR |
| EquipmentModels.RoleNameInjective | checklist_system/app/models.py:14-17 | distinct cargos have distinct member names, so the test on `cargo.name` is a test on the cargo |
| EquipmentRoutes.ManagerScreens | app/routes.py:21-30 | `role_required('GESTOR', 'COORDENADOR')` runs the handler exactly for an authenticated user whose cargo is GESTOR or COORDENADOR (the earlier copy at checklist_system/app/routes.py:15-24 behaves the same) |
| EquipmentRoutes.ScanAnswers | app/routes.py:135-142 | the loop with `break` computes the scan verdict: non-conforming, conforming, or a raise on an item without a 'resposta' key before any 'Não' |
| EquipmentRoutes.ScanFindsNo | app/routes.py:135-142 | when every item has an answer, the checklist is non-conforming exactly when some answer is 'Não' (the earlier copy at checklist_system/app/routes.py:128-135 behaves the same) |
| EquipmentRoutes.ScanStopsAtNo | app/routes.py:138-142 | a 'Não' settles the verdict even when later items lack the key, because the loop breaks there |
| EquipmentRoutes.StatusFor | app/routes.py:136-140 | 'Não Conforme' exactly for a non-conforming verdict, 'Conforme' exactly otherwise |
| EquipmentRoutes.EquipmentIndex | app/routes.py:119 | `get_or_404`: the position of the equipment with that id, or none exactly when no equipment has it |
| EquipmentRoutes.FillChecklist | app/routes.py:116-161 | anonymous users are redirected; an unknown equipment is NotFound; equipment without a template saves nothing; a missing or malformed answer list or a missing signature fails and nothing is stored; otherwise one checklist with the scanned status is appended; a conforming one writes no alert, and a non-conforming one appends exactly the alerts `send_non_compliance_alert` computes for the equipment's sector |
| EquipmentRoutes.NewChecklist | app/routes.py:144-151 | the inserted row: the equipment, the current user, the answers, the notes, the signature and the scanned status, unsigned by a manager |
| EquipmentRoutes.CommitAndAlert | app/routes.py:152-158 | the checklist is appended and committed; a conforming one writes no alert and uses one id; a non-conforming one appends exactly the alerts of its sector, with ids following the checklist's |
| EquipmentRoutes.AppendChecklist | app/routes.py:152-153 | the checklist is appended with the next id and the counter advances by one; no other table changes |
| EquipmentRoutes.EquipmentOf | app/routes.py:185 | `checklist.equipamento`: the equipment with the checklist's foreign key, or none exactly when no equipment has it |
| EquipmentRoutes.PendingChecklists | app/routes.py:166-176 | none when the gate redirects; otherwise newest first, holding exactly the unsigned checklists, limited to the viewer's sector for a GESTOR (the earlier copy at checklist_system/app/routes.py:159-169 behaves the same) |
| EquipmentRoutes.ValidatedStatus | app/routes.py:194-197 | the corrected mapping: always a '(Validado)' status, non-conforming exactly when the previous status was |
| EquipmentRoutes.ValidatedStatusStable | app/routes.py:194-197 | validating twice gives the status of validating once, and a first validation agrees with the code as written |
| EquipmentRoutes.RevalidationFlipsStatus | app/routes.py:194-197 | as written, signing 'Não Conforme' gives 'Não Conforme (Validado)', but signing that status again gives 'Conforme (Validado)' |
| EquipmentRoutes.ChecklistIndex | app/routes.py:182 | `get_or_404`: the position of the checklist with that id, or none exactly when none has it |
| EquipmentRoutes.ViewChecklist | app/routes.py:178-203 | anonymous users are redirected; other cargos are refused; an unknown checklist is NotFound; for a GESTOR, a checklist whose equipment is missing crashes and one outside the manager's sector is refused, each exactly in that case and changing nothing; an allowed viewer with an empty or absent signature gets Unchanged exactly, and with a signature gets Validated exactly; the signature, the manager's id and the validated status are written and nothing else changes. The status written is the corrected mapping `ValidatedStatus`, not the one at lines 194-197 as written (see the first finding). The earlier copy at checklist_system/app/routes.py:171-195 behaves the same |
| AlertEmail.HeaderLayout | app/email.py:12 | the To header lists every recipient in order, separated by ", ", and ends with the last one |
| AlertEmail.ToHeader | app/email.py:12 | `", ".join(recipients)` |
| AlertEmail.SectorUsersMembers | app/email.py:39 | `setor.users` holds exactly the users of the sector |
| AlertEmail.SectorUsers | app/email.py:39 | `setor.users`: the users whose sector is the equipment's, in table order |
| AlertEmail.FindManager | app/email.py:38-42 | the loop with `break` finds the first user of the sector whose cargo is GESTOR, or none |
| AlertEmail.CoordinatorsMembers | app/email.py:45 | the coordinator query holds exactly the users whose cargo is COORDENADOR |
| AlertEmail.Coordinators | app/email.py:45 | the users whose cargo is COORDENADOR, in table order |
| AlertEmail.Emails | app/email.py:54 | one address per coordinator, in query order |
| AlertEmail.RawRecipients | app/email.py:51-54 | the list has one entry for the manager, when there is one, plus one per coordinator; the manager's address comes first, and every coordinator's address is listed |
| AlertEmail.RawRecipientsOrder | app/email.py:54 | the coordinators' addresses close the list, in query order |
| AlertEmail.Distinct | app/email.py:57 | `list(set(...))`: no repeated address, the same addresses, and no longer than the input |
| AlertEmail.DistinctOfDistinct | app/email.py:57 | a list without repetitions is its own de-duplication |
| AlertEmail.AlertRows | app/email.py:75-77 | one alert per recipient, each pointing to the checklist, with consecutive fresh ids |
| AlertEmail.BuildAlerts | app/email.py:75-77 | one alert row per recipient, in order, each pointing to the checklist |
| AlertEmail.RecordAlerts | app/email.py:75-78 | the alert rows are appended and committed together, and the other tables are untouched |
| AlertEmail.AlertsFor | app/email.py:36-78 | the alert rows the function writes: none exactly when the sector has no manager and there is no coordinator; otherwise rows with consecutive fresh ids, all for the checklist |
| AlertEmail.AlertsForReachEveryone | app/email.py:51-57 | the rows' addresses are exactly the manager's and the coordinators' addresses, and no address gets two rows |
| AlertEmail.SendNonComplianceAlert | app/email.py:36-78 | nothing is recorded exactly when there is neither a manager nor a coordinator; otherwise the recipients are the distinct addresses of the manager and the coordinators, with exactly one alert row each; the rows appended are exactly `AlertsFor` of the users before the call, and the id counter advances by their number |
| AlertEmail.SingleCoordinatorGetsOneAlert | app/email.py:51-78 | a lone coordinator and no manager give exactly one alert, addressed to that coordinator, for the checklist |
| SystemAlertEmail.SendAsWritten | checklist_system/app/email.py:29-30 | as written, the function raises before any recipient is computed |
| SystemAlertEmail.AsWrittenLosesAlert | checklist_system/app/email.py:29-30 | with a coordinator on record, the intended function records an alert for them, but the function as written raises and records nothing |
| SystemAlertEmail.SendIntendedSilent | checklist_system/app/email.py:29-34 | the intended function never raises, and it stays silent exactly when the sector has no manager and there is no coordinator |
| SystemAlertEmail.SendNonComplianceAlert | checklist_system/app/email.py:28-62 | the intended function: nothing is recorded without a manager or a coordinator; otherwise one alert per entry of the manager-first list, duplicates kept |
| SystemAlertEmail.DedupRecordsNoMore | checklist_system/app/email.py:36-62 | for the alert rows this function appends, the rows the de-duplicating variant of app/email.py records for the same users (`AlertEmail.AlertsFor`) are no more in number and carry the same set of `enviado_para` addresses |
| SystemRoutes.FillForm | checklist_system/app/routes.py:108-120 | any existing equipment gets the form with the five fixed questions; anonymous users are sent to log in |
| SystemRoutes.CommitAndAlert | checklist_system/app/routes.py:145-152 | the checklist is appended and committed; a conforming one writes no alert; a non-conforming one writes the alerts of the intended alert function |
| SystemRoutes.FillChecklist | checklist_system/app/routes.py:122-154 | the status rule of the equipment application, without the template check: anonymous users are redirected; an unknown equipment is NotFound; a missing answer list or signature stores nothing; otherwise one checklist with the scanned status is appended |
| LslRoutes.TemplateFor | LSL/checklist_app/routes.py:30-34 | the first template when there is one; otherwise the default 'Checklist de Treinamento Padrão' with the four items 'Item 1'..'Item 4' |
| LslRoutes.NewChecklist | LSL/checklist_app/routes.py:36-44 | the new checklist: the submitted treinador, workload, process, avaliador, setor and turno, today's date, status 'Pendente', no signatures |
| LslRoutes.ItemRows | LSL/checklist_app/routes.py:48-50 | one unfilled item per template item name, in order, with consecutive ids |
| LslRoutes.ItemRowsPerName | LSL/checklist_app/routes.py:48-50 | one item per template item name, in template order, linked to the checklist, with no value and no remark |
| LslRoutes.BuildItems | LSL/checklist_app/routes.py:48-50 | the loop builds exactly those items |
| LslRoutes.Store.CreateChecklist | LSL/checklist_app/routes.py:22-54 | a missing avaliador, setor, turno or treinador is a bad request and nothing is written; otherwise the template is reused or created, the checklist is appended, and one item per template item name is appended |
| LslRoutes.FilledItemsOverwrite | LSL/checklist_app/routes.py:61-63 | every item of the checklist takes the form's value and remark for its id, absent keys becoming none; item identity is kept and other checklists' items are untouched |
| LslRoutes.FillItem | LSL/checklist_app/routes.py:61-63 | an item of the checklist takes the form's `item_<id>_valor` and `item_<id>_obs`, absent keys becoming none; other items are left alone |
| LslRoutes.FilledItems | LSL/checklist_app/routes.py:61-63 | every row of the item table passed through the fill of one item |
| LslRoutes.FillIdempotent | LSL/checklist_app/routes.py:61-63 | submitting the same form twice leaves the items as the first submission did |
| LslRoutes.FillItemValues | LSL/checklist_app/routes.py:61-63 | the loop computes exactly the filled items |
| LslRoutes.Sign | LSL/checklist_app/routes.py:67-80 | without a non-empty data URL the old signature, name and time stay; with one, the request fails exactly when the split or the decode fails, and otherwise the decoded image, the submitted name and the current time are stored |
| LslRoutes.SignCanvasUrl | LSL/checklist_app/routes.py:67-72 | a canvas data URL whose payload decodes is stored with its signer and time |
| LslRoutes.SignedChecklist | LSL/checklist_app/routes.py:66-82 | only the two signatures and the status change, and the status becomes 'Concluído' |
| LslRoutes.UnsignedFormKeepsSignatures | LSL/checklist_app/routes.py:66-82 | a form without signatures only completes the checklist and keeps both stored signatures |
| LslRoutes.BaseRow | LSL/checklist_app/routes.py:205-219 | the checklist's own columns of the spreadsheet |
| LslRoutes.ItemRow | LSL/checklist_app/routes.py:223-226 | the base row extended with the item's name, value and remark |
| LslRoutes.ExcelRows | LSL/checklist_app/routes.py:221-229 | one item row per item, or the base row alone when there is no item |
| LslRoutes.Store.Fill | LSL/checklist_app/routes.py:57-85 | an unknown checklist is NotFound and nothing changes; otherwise the items are filled and committed first; a signature that raises then leaves the checklist row as it was; otherwise the checklist is replaced by its signed form |
| LslRoutes.ExcelRowsExtendBase | LSL/checklist_app/routes.py:205-229 | one row per item, or a single row when there is none; every row repeats all base columns and carries its item's name, value and remark |
| LslRoutes.ExportRows | LSL/checklist_app/routes.py:221-229 | the loop builds exactly those rows from the base row |
| LslRoutes.NextItemY | LSL/checklist_app/routes.py:116-119 | the cursor 50 points lower, or the top of a new page once it falls below 100 |
| LslRoutes.CursorAfter | LSL/checklist_app/routes.py:109-119 | wherever an item is written, the cursor is between 100 and the top of the page |
| LslRoutes.ItemsStayOnPage | LSL/checklist_app/routes.py:112-119 | each item's three lines stay above 70 points; the next item is 50 points lower when there is room, and at the top of a new page otherwise |
| LslRoutes.ItemPositions | LSL/checklist_app/routes.py:109-119 | the loop writes item k at the cursor after k items, always at y ≥ 100, and ends at the cursor after all items |
| LslRoutes.SignatureTops | LSL/checklist_app/routes.py:124-165 | a block is drawn exactly for a stored signature; as a bound only, not the exact position: each block starts between 250 points up and the page top |
| MarcelaRoutes.BuildItems | MarcelaLSL/checklist_app/routes.py:111-121 | item i (from 0) is question i+1 at position i+1 with the submitted text, and it requires a comment exactly when a checkbox entry exists at i and contains "on" |
| MarcelaRoutes.ItemsOrderedByPosition | MarcelaLSL/checklist_app/routes.py:116-119 | positions follow the question order, and question numbers run from 1 to the number of questions |
| MarcelaRoutes.Store.CreateTemplate | MarcelaLSL/checklist_app/routes.py:90-131 | only an Administrador proceeds; a missing name or sector, or a name already taken, keeps nothing; otherwise one active template is appended with its numbered items |
| MarcelaRoutes.SeedAnswers | MarcelaLSL/checklist_app/routes.py:166-174 | one answer per template item, in item order, each 'NSP' with an empty comment |
| MarcelaRoutes.NewChecklist | MarcelaLSL/checklist_app/routes.py:146-162 | the new checklist is in progress, saved partially and unsigned, created and evaluated by the current user, for the placeholder employee 'Colaborador' |
| MarcelaRoutes.Store.StartChecklist | MarcelaLSL/checklist_app/routes.py:140-177 | an unknown template changes nothing; otherwise the checklist is appended with one 'NSP' answer per template item, the answers taking the ids after the checklist's, and the id counter advances past them |
| MarcelaRoutes.Resubmitted | MarcelaLSL/checklist_app/routes.py:196-197 | an answer takes its submitted value, or 'NSP' when absent, and its submitted comment, or '' when absent; its identity is kept |
| MarcelaRoutes.ResubmitAnswers | MarcelaLSL/checklist_app/routes.py:195-197 | the checklist's answers are resubmitted and the answers of other checklists are untouched |
| MarcelaRoutes.Store.EditChecklist | MarcelaLSL/checklist_app/routes.py:179-215 | NotFound exactly for an unknown checklist; Failed, with nothing changed, exactly when the name, shift, area or coach is missing, the training date is missing or unreadable, or a signature is sent that fails to split or decode; otherwise the checklist becomes `Edited` of the old one and the answers are resubmitted |
| MarcelaRoutes.Edited | MarcelaLSL/checklist_app/routes.py:184-206 | identity, template, creator, evaluator and start time are kept; the nine header fields come from the form; the status becomes 'Aguardando Validação', no longer saved partially, ended now; the signature, its name and time are kept without a new signature and replaced by the decoded image, the submitted name and now with one |
| MarcelaRoutes.LogOf | MarcelaLSL/checklist_app/routes.py:223 | the first log of the (checklist, validator) pair, or none when no log matches |
| MarcelaRoutes.AppendNewPairKeepsOneLog | MarcelaLSL/checklist_app/routes.py:223-253 | appending the log of a pair that has none keeps at most one log per (checklist, validator) |
| MarcelaRoutes.ValidationGate | MarcelaLSL/checklist_app/routes.py:222-239 | a validator already on record is refused first, then a role outside Líder, Gestor, Qualidade, Seguranca and Coordenação, then a missing signature; it passes exactly when none of these holds |
| MarcelaRoutes.SecondValidationRefused | MarcelaLSL/checklist_app/routes.py:223-225 | once a validator's log is in, the same validator is refused on that checklist |
| MarcelaRoutes.Store.Validate | MarcelaLSL/checklist_app/routes.py:217-267 | a refused gate or a failed split or decode changes nothing; otherwise exactly one 'Aprovado' log is appended and the status becomes 'Aprovado por ' followed by the role |
| MarcelaRoutes.Toggled | MarcelaLSL/checklist_app/routes.py:515 | the active flag is negated and every other field is kept |
| MarcelaRoutes.ToggleTwiceRestores | MarcelaLSL/checklist_app/routes.py:515 | toggling twice restores the template |
| MarcelaRoutes.Store.ToggleTemplate | MarcelaLSL/checklist_app/routes.py:507-519 | only an Administrador proceeds; an unknown template is NotFound; an Administrador with a known template always gets Done, and exactly that template is toggled |
| MarcelaRoutes.FixedColumns | MarcelaLSL/checklist_app/routes.py:393-409 | the checklist's own spreadsheet columns, with the template and evaluator names |
| MarcelaRoutes.LogCell | MarcelaLSL/checklist_app/routes.py:413-417 | the value of one field of a log, an absent comment, time or signer reading 'N/A' |
| MarcelaRoutes.NumberedHeadersDistinct | MarcelaLSL/checklist_app/routes.py:412-417 | two numbered validator columns have the same header only when they are the same field of the same log |
| MarcelaRoutes.LogColumns | MarcelaLSL/checklist_app/routes.py:413-417 | a log's columns all carry its number |
| MarcelaRoutes.LogColumnsAt | MarcelaLSL/checklist_app/routes.py:413-417 | each of the five fields of the n-th log is present with its value, an empty comment or signature name reading 'N/A' |
| MarcelaRoutes.ValidatorColumns | MarcelaLSL/checklist_app/routes.py:412-417 | the validator columns are numbered 1..n |
| MarcelaRoutes.ValidatorColumnsStep | MarcelaLSL/checklist_app/routes.py:412-417 | one more log adds its five numbered columns |
| MarcelaRoutes.ValidatorColumnsNumbered | MarcelaLSL/checklist_app/routes.py:412-417 | the columns of the k-th log keep its values in the base row, whatever logs come after it |
| MarcelaRoutes.AddValidatorColumns | MarcelaLSL/checklist_app/routes.py:412-417 | the loop adds all logs' columns to the base row |
| MarcelaRoutes.AnswerColumns | MarcelaLSL/checklist_app/routes.py:423-425 | the row carries the answer's question, its answer, and its comment, or 'N/A' when the comment is absent or empty |
| MarcelaRoutes.AnswerRow | MarcelaLSL/checklist_app/routes.py:422-426 | a copy of the base row extended with the answer's columns |
| MarcelaRoutes.ExportTable | MarcelaLSL/checklist_app/routes.py:420-428 | one answer row per answer, or the base row alone when there is none |
| MarcelaRoutes.CopyPerAnswer | MarcelaLSL/checklist_app/routes.py:420-428 | one copy of the base row per answer, or the base row alone |
| MarcelaRoutes.ExportRows | MarcelaLSL/checklist_app/routes.py:387-428 | the sheet is the fixed columns plus the validator columns, copied once per answer |
| MarcelaRoutes.ExportRowCount | MarcelaLSL/checklist_app/routes.py:420-428 | one row per answer, or a single row when there is none; the k-th row holds the k-th answer's question and answer |
| MarcelaRoutes.ExportRowsCarryLogs | MarcelaLSL/checklist_app/routes.py:412-428 | every exported row carries every log's five columns, numbered 1..n in log order |
| MvpRoutes.Lower | checklist_mvp/app/routes.py:92 | the extension is compared letter by letter in lower case |
| MvpRoutes.LastDot | checklist_mvp/app/routes.py:92 | the position of the last '.', or none exactly when the name has no '.' |
| MvpRoutes.LastDotUnique | checklist_mvp/app/routes.py:92 | a '.' with no '.' after it is the one `rsplit('.', 1)` splits at |
| MvpRoutes.AllowedFile | checklist_mvp/app/routes.py:90-92 | accepted exactly when the name has a '.' and the text after the last one, in lower case, is png, jpg, jpeg or gif |
| MvpRoutes.AllowedFileOfExtension | checklist_mvp/app/routes.py:90-92 | a name ending in '.' plus a dotless extension is accepted exactly when the lowered extension is allowed |
| MvpRoutes.DotlessRejected | checklist_mvp/app/routes.py:91 | a name without a '.' is refused |
| MvpRoutes.FotoPath | checklist_mvp/app/routes.py:114-121 | a photo is stored exactly when the item's file field is present, named and allowed, under the upload folder as the secured "<checklist>_<item>_<name>" |
| MvpRoutes.RespostaFor | checklist_mvp/app/routes.py:112-129 | the response for one item: the form's status and remark for the item, and its photo path |
| MvpRoutes.RespostaRows | checklist_mvp/app/routes.py:110-130 | one response per item template, in template order, with consecutive ids |
| MvpRoutes.RespostaRowsLinked | checklist_mvp/app/routes.py:111-130 | one response per template item, in order, with consecutive ids, pointing to the new checklist and its item, holding the form's status for that item |
| MvpRoutes.FailuresMembers | checklist_mvp/app/routes.py:132-133 | the failure list holds exactly the responses whose status is 'Falha' |
| MvpRoutes.Failures | checklist_mvp/app/routes.py:132-133 | the responses whose status is 'Falha', in order |
| MvpRoutes.FailuresEmpty | checklist_mvp/app/routes.py:132-138 | the failure list is empty exactly when no response has status 'Falha' |
| MvpRoutes.FailuresIffFormFailure | checklist_mvp/app/routes.py:110-138 | an alert is due exactly when some item's submitted status is 'Falha' |
| MvpRoutes.BuildRespostas | checklist_mvp/app/routes.py:110-133 | the loop builds the response rows and collects the failing ones |
| MvpRoutes.FailuresStep | checklist_mvp/app/routes.py:132-133 | one more response extends the failure list exactly when its status is 'Falha' |
| MvpRoutes.SaveSubmission | checklist_mvp/app/routes.py:101-135 | the checklist and then its responses are appended with ids continuing the counter, and the failure list of those responses is returned |
| MvpRoutes.SubmitChecklist | checklist_mvp/app/routes.py:94-157 | anonymous users are sent to login and an unknown asset is not found, both changing nothing; otherwise the checklist ('Manhã', '1.0', now, current user) and its responses are appended, and the alert is sent exactly when some response failed |
| MvpRoutes.PdfStatus | checklist_mvp/app/routes.py:250 | 'Com Falhas' exactly when one of the checklist's responses is a 'Falha', 'OK' otherwise |
| MvpRoutes.SavedChecklistPdfStatus | checklist_mvp/app/routes.py:110-138 | a saved checklist shows 'Com Falhas' in the PDF exactly when its submission raised an alert |
| MvpRoutes.AtivoMatches | checklist_mvp/app/routes.py:173-174 | the asset filter matches when the text argument is a decimal numeral equal to the checklist's asset id |
| MvpRoutes.Selected | checklist_mvp/app/routes.py:165-174 | a checklist is kept when it meets each supplied bound: from the start day, up to 23:59:59 of the end day, and the asset |
| MvpRoutes.QueryChecklistsFiltrados | checklist_mvp/app/routes.py:161-176 | an unparsable date raises; otherwise the result holds exactly the checklists within the supplied start day, end day up to 23:59:59 and asset, newest first |
| MvpRoutes.RowFor | checklist_mvp/app/routes.py:202-210 | the sheet row of one (checklist, response) pair, or none when its asset, operator or item is missing |
| MvpRoutes.RowOf | checklist_mvp/app/routes.py:202-210 | the row builder as a function of the pair |
| MvpRoutes.ExcelSpec | checklist_mvp/app/routes.py:197-211 | the rows of every (checklist, response) pair, or none when one of them raises |
| MvpRoutes.ExcelRowsPerPair | checklist_mvp/app/routes.py:200-211 | one row per (checklist, response) pair in query order, with the checklist's id and time and the response's status and remark |
| MvpRoutes.ExcelSucceedsWhenLinked | checklist_mvp/app/routes.py:203-211 | the export does not raise when every asset, operator and item referred to exists |
| MvpRoutes.ExportExcel | checklist_mvp/app/routes.py:196-211 | the nested loop yields the rows of the specification, or raises as it does |
| TrainingModels.UsuarioIndex | checklist_app/blueprints/admin.py:115 | the position of the user with that id, or none exactly when no user has it (`get_or_404`) |
| TrainingAdmin.HasPermission | checklist_app/blueprints/admin.py:15-17 | true exactly when the user is logged in with the required perfil |
| TrainingAdmin.AdminGate | checklist_app/blueprints/admin.py:19-24 | anonymous users are sent to login; logged-in users are admitted exactly when their perfil is administrador or coordenador |
| TrainingAdmin.GateMatchesPermission | checklist_app/blueprints/admin.py:15-24 | the gate admits exactly the users that have permission as administrador or as coordenador |
| TrainingAdmin.SplitLines | checklist_app/blueprints/admin.py:89 | `split('\n')` gives at least one piece and no piece holds a newline |
| TrainingAdmin.JoinLines | checklist_app/blueprints/admin.py:88-89 | `'\n'.join(lines)` |
| TrainingAdmin.JoinSplitLines | checklist_app/blueprints/admin.py:89 | joining the pieces with newlines gives the text back |
| TrainingAdmin.SplitJoinLines | checklist_app/blueprints/admin.py:89 | splitting joined newline-free lines gives the lines back |
| TrainingAdmin.KeepItems | checklist_app/blueprints/admin.py:89 | exactly the stripped lines that are not empty, in order; every kept item is non-empty and already stripped |
| TrainingAdmin.StripEach | checklist_app/blueprints/admin.py:89 | each line stripped, in order |
| TrainingAdmin.KeepItemsStep | checklist_app/blueprints/admin.py:89 | the comprehension keeps the first line's stripped text exactly when it is not blank, followed by what it keeps of the other lines |
| TrainingAdmin.ParseItems | checklist_app/blueprints/admin.py:88-89 | exactly the non-empty stripped lines of the stripped text, in order; every template item is non-empty and already stripped |
| TrainingAdmin.TextLines | checklist_app/blueprints/admin.py:88-89 | the stripped text splits into at least one line |
| TrainingAdmin.JoinLinesEnds | checklist_app/blueprints/admin.py:88 | joined non-empty lines start with the first line's first letter and end with the last line's last letter |
| TrainingAdmin.JoinedItemsStripped | checklist_app/blueprints/admin.py:88 | the outer strip leaves joined clean items unchanged |
| TrainingAdmin.KeepCleanItems | checklist_app/blueprints/admin.py:89 | clean lines are all kept, in order |
| TrainingAdmin.ParseItemsRoundTrip | checklist_app/blueprints/admin.py:88-89 | typing clean items one per line gives back exactly those items, in order |
| TrainingAdmin.CadastrarModelo | checklist_app/blueprints/admin.py:83-103 | gated; Saved exactly when the gate admits, the text area yields at least one item and tipo is given; no items creates nothing; a missing text area or missing tipo fails with nothing saved; otherwise the template with the parsed items is appended and becomes the latest of its tipo |
| TrainingAdmin.AddModelo | checklist_app/blueprints/admin.py:93-98 | the template is appended with the next id and is then the latest of its tipo |
| TrainingAdmin.CadastrarSetor | checklist_app/blueprints/admin.py:64-78 | gated; Saved exactly when the gate admits and a name no sector has is given; a missing name fails and an existing name is refused, both changing nothing; otherwise exactly one sector with that name is appended |
| TrainingAdmin.EditarUsuario | checklist_app/blueprints/admin.py:113-124 | gated; Saved exactly when the gate admits, the user exists, nome, login and perfil are given and no other user holds the login; an unknown user is not found; a missing field or a login another user holds fails; otherwise only that user's nome, login and perfil change |
| TrainingAdmin.ExcluirUsuario | checklist_app/blueprints/admin.py:128-139 | gated; Saved exactly when the gate admits, the user exists and is not the one logged in; an unknown user is not found; deleting oneself is refused; otherwise exactly that user is removed |
| TrainingAdmin.ColaboradorOf | checklist_app/blueprints/admin.py:155 | the collaborator the sheet points to, or none exactly when there is no such collaborator |
| TrainingAdmin.Given | checklist_app/blueprints/admin.py:158-161 | `if colaborador_id:`: an integer filter applies when it is present and not 0 |
| TrainingAdmin.DayArg | checklist_app/blueprints/admin.py:162-166 | a date filter applies when it is present and not empty, and is then parsed as a day |
| TrainingAdmin.ReportMatch | checklist_app/blueprints/admin.py:155-167 | a sheet is reported when it joins to its collaborator and sector and meets every supplied filter |
| TrainingAdmin.GerarRelatorios | checklist_app/blueprints/admin.py:143-170 | gated; an unparsable date raises; otherwise the result is exactly the joined sheets, in table order, that meet every supplied filter (collaborator, sector, from the start day, up to 23:59:59 of the end day) |
| TrainingChecklists.LatestModelo | checklist_app/blueprints/checklists.py:23 | the template of the tipo with the highest id, or none exactly when the tipo has no template |
| TrainingChecklists.AppendedModeloIsLatest | checklist_app/blueprints/checklists.py:23 | a newly added template with the highest id becomes the latest of its tipo and leaves other tipos' choice unchanged |
| TrainingChecklists.IntToString | checklist_app/blueprints/checklists.py:42 | the decimal text of an integer is non-empty and has no surrounding blanks |
| TrainingChecklists.ParseSigned | checklist_app/blueprints/checklists.py:42 | parses exactly the integer literals, digits with an optional '+' or '-', and gives their signed decimal value |
| TrainingChecklists.ParseInt | checklist_app/blueprints/checklists.py:42 | `int(s)` succeeds exactly when the stripped text is an integer literal, and gives its signed decimal value; a blank answer does not parse |
| TrainingChecklists.ParseSignedRoundTrip | checklist_app/blueprints/checklists.py:42 | the decimal text of any integer reads back as that integer |
| TrainingChecklists.ParseIntRoundTrip | checklist_app/blueprints/checklists.py:42 | `int(str(n)) == n` |
| TrainingChecklists.AnswerPoints | checklist_app/blueprints/checklists.py:41-42 | an absent or empty answer adds 0; any other answer adds its integer value or raises |
| TrainingChecklists.Tally | checklist_app/blueprints/checklists.py:36-42 | points summed over the items in order, none once an item's points do not parse |
| TrainingChecklists.SumPoints | checklist_app/blueprints/checklists.py:36-42 | the sum of the items' points |
| TrainingChecklists.WeeklyScore | checklist_app/blueprints/checklists.py:36-42 | the weekly score: the answers' points summed in item order, none once an answer is not a number |
| TrainingChecklists.SheetScore | checklist_app/blueprints/checklists.py:33-42 | the score of a sheet: summed for 'semanal', 0 for any other tipo |
| TrainingChecklists.Answers | checklist_app/blueprints/checklists.py:36-38 | the respostas dict: each item mapped to its submitted value |
| TrainingChecklists.TallyFailsExactly | checklist_app/blueprints/checklists.py:36-42 | the sum raises exactly when some item's points do not parse |
| TrainingChecklists.TallyStep | checklist_app/blueprints/checklists.py:36-42 | one more item adds its points, or raises |
| TrainingChecklists.TallyOfPresent | checklist_app/blueprints/checklists.py:36-42 | when every item has points, the score is their sum |
| TrainingChecklists.WeeklyScoreStep | checklist_app/blueprints/checklists.py:36-42 | the weekly score grows by each item's answer points, or raises |
| TrainingChecklists.WeeklyScoreFailsExactly | checklist_app/blueprints/checklists.py:41-42 | the weekly score raises exactly when some non-empty answer is not an integer |
| TrainingChecklists.WeeklyScoreOfNumbers | checklist_app/blueprints/checklists.py:36-42 | when the answers are the items' numbers, or empty for 0, the score is the sum of the numbers |
| TrainingChecklists.AnswersRecorded | checklist_app/blueprints/checklists.py:36-38 | the respostas map has exactly the template items as keys, each with its submitted value |
| TrainingChecklists.AnswersStep | checklist_app/blueprints/checklists.py:37-38 | one more item adds its submitted value under its key |
| TrainingChecklists.ScoreSheet | checklist_app/blueprints/checklists.py:32-42 | the loop computes the specified score, raising exactly when it does, and records every item's answer |
| TrainingChecklists.Situacao | checklist_app/blueprints/checklists.py:44-51 | a weekly sheet is 'Aprovado' exactly when the score is 8 or more and 'Reprovado' otherwise; other tipos have none |
| TrainingChecklists.SheetFor | checklist_app/blueprints/checklists.py:56-65 | a saved sheet holds the template's items mapped to the submitted values, the score and situação of the form, the notes and the signature as a one-element list |
| TrainingChecklists.PreencherChecklist | checklist_app/blueprints/checklists.py:12-70 | an unknown collaborator is not found, a perfil outside the four fillers is refused, a tipo without template and a failing score save nothing; otherwise exactly one sheet is appended with the latest template, the score, the situação, the answers and the signature as a one-element list |
| TrainingChecklists.Historico | checklist_app/blueprints/checklists.py:77-83 | an unknown collaborator is not found; otherwise exactly that collaborator's sheets, newest first |
| TrainingDashboard.ImageMembers | checklist_app/blueprints/main.py:26 | the set built from the list holds exactly the collaborators of its elements |
| TrainingDashboard.Image | checklist_app/blueprints/main.py:26 | `set([f(x) for x in s])` |
| TrainingDashboard.ImageBound | checklist_app/blueprints/main.py:26-29 | the set has no more members than the list has elements |
| TrainingDashboard.InTraining | checklist_app/blueprints/main.py:18 | exactly the collaborators whose status is em_treinamento |
| TrainingDashboard.FailedWeekly | checklist_app/blueprints/main.py:20-23 | exactly the sheets of a weekly template whose situação is 'Reprovado' |
| TrainingDashboard.AtRisk | checklist_app/blueprints/main.py:26 | the intended at-risk set: exactly the collaborators with a failed weekly sheet (as written the line raises, see the findings) |
| TrainingDashboard.TotalDiasPrevistos | checklist_app/blueprints/main.py:32 | 30 days per collaborator in training, or 1 when there is none |
| TrainingDashboard.SheetsOfTipo | checklist_app/blueprints/main.py:33-35 | exactly the sheets whose template has the tipo |
| TrainingDashboard.DailyOn | checklist_app/blueprints/main.py:53-56 | exactly the daily sheets filled on the given day |
| TrainingDashboard.NaoPreenchidos | checklist_app/blueprints/main.py:57-62 | exactly the collaborators in training without a daily sheet today |
| TrainingDashboard.Visible | checklist_app/blueprints/main.py:85-96 | administrador and coordenador see everyone, a lider sees the collaborators they lead, anyone else sees nobody |
| TrainingDashboard.DashboardListing | checklist_app/blueprints/main.py:64-70 | the first two perfis and lider see their visible collaborators; anyone else gets a single entry, the collaborator with their own id or none |
| TrainingDashboard.Dashboard | checklist_app/blueprints/main.py:14-82 | the intended page: login is required and a logged-in user gets the page; the page's counts are the in-training count, the daily sheet count, at least one planned day, the at-risk set and its size (at most the failed weekly sheets), the missing-today set (at most the in-training count) and the role-filtered listing |
| TrainingDashboard.DashboardAsWritten | checklist_app/blueprints/main.py:14-26 | as written: a logged-in request is a server error exactly when some weekly sheet is 'Reprovado'; otherwise it answers as the intended page |
| TrainingDashboard.FailedWeeklySheetBreaksDashboard | checklist_app/blueprints/main.py:20-26 | with one failed weekly sheet on record, the page as written is a server error, while the intended page lists that sheet's collaborator as at risk |
| SistemaCrud.GetUserByUsername | sistema_checklist/app/crud.py:8-10 | a user with that username, or none exactly when no user has it |
| SistemaCrud.LookupFindsOwner | sistema_checklist/app/crud.py:8-10 | with unique usernames the lookup finds each user by their own username |
| SistemaCrud.CreateUser | sistema_checklist/app/crud.py:12-25 | a username or e-mail already in use breaks a unique column and stores nothing; otherwise the user is appended with the next id, the hash of the password, no sector and active, and the lookup then finds them |
| SistemaCrud.GetCurrentUser | sistema_checklist/app/crud.py:28-41 | authenticated exactly when the token decodes with a 'sub' naming a stored user, and then that user |
| SistemaCrud.LoginTokenAuthenticates | sistema_checklist/app/crud.py:28-41 | a token whose payload is the user's username as 'sub' authenticates that user |
| SistemaCrud.HttpStatus | sistema_checklist/app/crud.py:43-46 | 200 exactly for an active user |
| SistemaCrud.GetCurrentActiveUser | sistema_checklist/app/crud.py:43-46 | the intended check: never a server error; the user passes exactly when authenticated and active |
| SistemaCrud.GetCurrentActiveUserAsWritten | sistema_checklist/app/crud.py:43-46 | as written: an inactive user makes the `raise` fail with `NameError`, answered with 500 |
| SistemaCrud.InactiveUserGetsServerError | sistema_checklist/app/crud.py:45 | as written an inactive user gets 500, where 400 is intended |
| SistemaCrud.AsWrittenAgreesOtherwise | sistema_checklist/app/crud.py:43-46 | for every request but an inactive user's, the code as written answers as intended |
| SistemaCrud.Start | sistema_checklist/app/crud.py:52 | the offset starts within the table |
| SistemaCrud.Page | sistema_checklist/app/crud.py:51-52 | the page is a prefix of the rows from the offset, at most `limit` long, exactly `limit` long when enough rows follow, every remaining row when fewer follow, and unbounded for a negative limit |
| SistemaCrud.PagesAdjacent | sistema_checklist/app/crud.py:51-52 | two consecutive pages make up the page spanning both |
| SistemaCrud.PagesConcatIsPage | sistema_checklist/app/crud.py:51-52 | the first n pages of size l, one after another, are the page of size n*l |
| SistemaCrud.PagesCoverTable | sistema_checklist/app/crud.py:51-52 | paging through with a positive limit lists the whole table, in order, once |
| SistemaCrud.GetSectorByName | sistema_checklist/app/crud.py:48-49 | a sector with that name, or none exactly when no sector has it |
| SistemaCrud.CreateSector | sistema_checklist/app/crud.py:54-59 | a name in use breaks the unique column and stores nothing; otherwise a sector without manager is appended and the name lookup finds it |
| SistemaCrud.CreateEquipment | sistema_checklist/app/crud.py:64-73 | a QR code already on record stores nothing; otherwise the equipment is appended with its name, location and sector |
| SistemaCrud.GetSectors | sistema_checklist/app/crud.py:51-52 | the page of sectors, at most `limit` long |
| SistemaCrud.GetEquipments | sistema_checklist/app/crud.py:61-62 | the page of equipment, at most `limit` long |
| SistemaCrud.ResponseRowsLinked | sistema_checklist/app/crud.py:92-97 | one stored response per submitted one, in order, under the new checklist, with its question, answer and comment |
| SistemaCrud.BuildResponses | sistema_checklist/app/crud.py:92-97 | the loop builds exactly the specified responses |
| SistemaCrud.CreateChecklist | sistema_checklist/app/crud.py:75-104 | the checklist is appended 'CONCLUÍDO', with the creation time, no manager, no validation time and no manager signature, and its responses are appended with it |
| SistemaCrud.NewChecklistResponses | sistema_checklist/app/crud.py:92-100 | the responses stored under the new checklist are exactly the submitted ones |
| SistemaReports.RequireRole | sistema_checklist/app/routers/reports.py:15-19 | the request goes on exactly for an active user whose role is admitted; a refused role is 403, and a failed user check keeps its own status |
| SistemaReports.ReportsNeedManager | sistema_checklist/app/routers/reports.py:15-19 | a report is reached exactly by an authenticated, active gestor or administrador; an active colaborador gets 403 |
| SistemaReports.ValidatedBy | sistema_checklist/app/routers/reports.py:56 | empty when the checklist has no manager; a non-empty value is the manager's full name |
| SistemaReports.RowFor | sistema_checklist/app/routers/reports.py:49-61 | a row exists exactly when the equipment, its sector and the collaborator exist, and carries the checklist's id, time, status, validator and validation time with the response's question, answer and comment |
| SistemaReports.RowOf | sistema_checklist/app/routers/reports.py:49-61 | the row builder as a function of the pair |
| SistemaReports.ReportRowsPerPair | sistema_checklist/app/routers/reports.py:46-61 | one row per (checklist, response) pair, in order, as many as the listed checklists have responses, each pairing a checklist with one of its own responses |
| SistemaReports.ReportSpec | sistema_checklist/app/routers/reports.py:46-61 | the rows of every (checklist, response) pair, or none when one of them raises |
| SistemaReports.EmptyReportIffNoResponses | sistema_checklist/app/routers/reports.py:46-64 | the no-data message is given exactly when no listed checklist has a response |
| SistemaReports.FlattenHasPair | sistema_checklist/app/routers/reports.py:47-48 | every listed checklist with one of its responses is visited by the loop |
| SistemaReports.ExportChecklistsReport | sistema_checklist/app/routers/reports.py:33-83 | the guard's refusal is passed on; a dangling reference is a server error; no rows gives the message; otherwise the download holds the specified rows, as a spreadsheet exactly when the format is "xlsx" and CSV otherwise, named after today's date with the matching extension |
| Joins.ChildrenOfMembers | sistema_checklist/app/routers/reports.py:48 | `c.responses` holds exactly the responses that point to the checklist |
| Joins.WithParent | sistema_checklist/app/routers/reports.py:47-49 | the inner loop pairs the parent with each child, in order |
| Joins.FlattenLinked | sistema_checklist/app/routers/reports.py:47-48 | every visited pair joins a listed parent with one of its own children |
| Joins.FlattenPrefix | sistema_checklist/app/routers/reports.py:47-48 | the pairs of the first parents open the list of all pairs |
| Joins.FlattenLength | checklist_mvp/app/routes.py:201-211 | the nested loop visits as many pairs as the parents have children |
| Joins.CollectPerElement | checklist_mvp/app/routes.py:203-211 | building the rows succeeds exactly when every row can be built, and then holds one row per pair, in order |
| Joins.CollectPrefixFails | checklist_mvp/app/routes.py:203-211 | once building a row raises, the whole export raises |
| Joins.CollectFrom | checklist_mvp/app/routes.py:202-211 | the inner loop extends the rows built so far, or raises as the specification does |
| Joins.FlattenRows | sistema_checklist/app/routers/reports.py:46-61 | the nested loop yields exactly the rows of every (parent, child) pair, or raises as the specification does |

## Left out

- Sending mail: the SMTP exchange, the message bodies, subjects and templates are not modelled. `send_email` catches every failure, so only the recipient lists, the `To` header and the alert rows matter to the stored state.
- Rendering: flash messages, HTML templates, redirect targets and the JavaScript under `static/js` are out of scope. Each handler's outcome is a datatype naming which branch it took.
- PDF and spreadsheet files: ReportLab, WeasyPrint, pandas and the PIL image normalisation are out of scope. The model keeps the row lists and the LSL page cursor; dates in rows stay instants instead of `strftime` text.
- Base64 decoding, password hashing, JWT encoding and decoding, `secure_filename`, UUIDs and the clock are parameters, not models. Decoding may fail; the others are arbitrary functions or given values.
- QR-code image generation (app/routes.py:100-106) is left out; only the stored identifier is modelled.
- Dashboard percentages and the weekly average chart use float division, SQL `avg` and `strftime('%W')` grouping, and are left out (app/routes.py:40, checklist_app/blueprints/main.py:36-49).
- GET pages that only render a query are left out. These include the index and listing pages, `ver_checklist`, `admin_dashboard`, `gerenciar_usuarios`, login and logout, and checklist_mvp's `ativos` page.
- checklist_app/blueprints/admin.py `cadastrar_colaborador` is left out; it is plain inserts without a rule.
- checklist_app/blueprints/admin.py `exportar_relatorio` is left out. It applies none of the filters and writes a CSV of all joined sheets; lines 202-203 read `res.colaborador` for each result, which raises for the same missing relationship as the dashboard (see the findings).
- The thin FastAPI routers (sectors.py, equipments.py, checklists.py, auth.py) are left out; only the crud functions they call are modelled.
- sistema_checklist/app/routers/reports.py `get_checklists_report` and the filtering it delegates to are left out. `crud.get_filtered_checklists` is not defined in crud.py, so it is not part of this model. The export takes the already filtered checklist list as input.
- SistemaReports.RequireRole: sistema_checklist/app/security.py defines no `require_role`, although reports.py imports it. As written the router module fails to import, and since sistema_checklist/app/main.py:9 imports that router, the whole service fails to start and no endpoint answers. The model gives the guard its evident meaning: the active-user check, then 403 for a role outside the list.
- checklist_mvp/app/models.py does not match its routes. It defines `ItemModelo` rather than `ItemTemplate`, and `Checklist` has no `turno` or `versao`. As written, `from app.models import ItemTemplate, ...` at checklist_mvp/app/routes.py:10 raises `ImportError`, so checklist_mvp does not start and no route answers. The model follows the shapes routes.py uses.
- Foreign keys are not enforced by SQLite, so inserts do not check them. A dangling reference matters only where a later read raises, and those reads are modelled as `None`.
- Each database class uses one id counter for all its tables rather than one autoincrement sequence per table. Ids are fresh and increasing, but not numbered 1, 2, 3 within each table.
- Requests are sequential: the cross-request races of the web server are not modelled. A request whose commit fails leaves the tables as they were.
- MvpRoutes.Lower: lower-cases ASCII letters only. Python's `str.lower` also folds other Unicode letters, which cannot make an allowed extension out of a refused one here, since the allowed extensions are ASCII.
- MvpRoutes.AtivoMatches: a text argument matches the integer column only when it is all decimal digits. SQLite would also accept surrounding blanks or a sign.
- AlertEmail.Distinct: keeps each address at its first occurrence. Python's `set` fixes no order, so the model picks one order for the recipient list.
- SystemRoutes.FillChecklist: runs the intended alert, not the one as written. As written, a non-conforming POST commits the checklist (checklist_system/app/routes.py:146) and then calls `send_non_compliance_alert` (line 149), which raises `AttributeError` at checklist_system/app/email.py:29; the response is a server error, the checklist stays saved and no alert row is written, where the model returns `Saved(true)` with the intended rows (see the findings). Its own contract states the saved checklist and that a conforming submission writes no alert; the alert rows of a non-conforming one are stated by SystemRoutes.CommitAndAlert, which it calls.
- EquipmentRoutes.ViewChecklist: writes the corrected validated status `ValidatedStatus`, not the mapping as written at app/routes.py:194-197. The two agree on a first validation; the as-written flip on a second validation is exhibited by EquipmentRoutes.RevalidationFlipsStatus (see the findings).
- TrainingChecklists.ParseInt: accepts only ASCII digits after an optional sign and surrounding whitespace. Python's `int` also accepts '_' between digits and non-ASCII decimal digits; the model refuses those, so such an answer fails the request and nothing is saved.
- MvpRoutes.ExportExcel: models the rows `export_excel` builds. As written the route then always fails: checklist_mvp/app/routes.py:216 opens `pd.ExcelWriter('php://output')`, a path with no file extension, so pandas raises `ValueError` before any file is written, and even past that, line 221 calls `getvalue()` on the `ExcelWriter`, which has no such method. No download is modelled.
- LslRoutes: the template's `itens_json` column is nullable JSON; the model takes it to be a list of item names, so a null list (whose loop would raise after the checklist commit) is not modelled.

## Findings

| source | as written | input that shows it | evidently intended | confidence | as-written member | corrected member |
|---|---|---|---|---|---|---|
| app/routes.py:194-197 (and checklist_system/app/routes.py:187-190) | only the exact status 'Não Conforme' stays non-conforming when signed | signing a checklist already in 'Não Conforme (Validado)' sets it to 'Conforme (Validado)' | validation keeps the conformity verdict, and validating again changes nothing | high, not executed | EquipmentRoutes.RevalidationFlipsStatus | EquipmentRoutes.ValidatedStatusStable |
| checklist_system/app/email.py:29 | `setor.users` is a plain list (the backref at checklist_system/app/models.py:30 is not dynamic), so `.filter_by` raises `AttributeError` after the checklist commit; `User` on line 30 is not imported either | any non-conforming checklist, for example with one coordinator on record | the manager and the coordinators get the mail and one alert row each | high, not executed | SystemAlertEmail.AsWrittenLosesAlert | SystemAlertEmail.SendIntendedSilent |
| sistema_checklist/app/crud.py:45 | `HTTPException` is not imported, so refusing an inactive user raises `NameError` | an authenticated user with `is_active` false gets a 500 response | a 400 "Inactive user" refusal | high, not executed | SistemaCrud.InactiveUserGetsServerError | SistemaCrud.GetCurrentActiveUser |
| checklist_app/blueprints/main.py:26 | `r.colaborador` is read on a `ChecklistRespostas` row, but checklist_app/models.py:66-81 gives that model no `colaborador` relationship, so the line raises `AttributeError` | any logged-in request while one 'semanal' sheet is 'Reprovado' | the dashboard lists that sheet's collaborator as at risk | high, not executed | TrainingDashboard.FailedWeeklySheetBreaksDashboard | TrainingDashboard.Dashboard |
