/** The LSL training-checklist application (LSL/checklist_app): a checklist is created from the
    first template (a default one with four items is made when there is none), its items are
    filled and it is signed by the employee and the manager; it is exported as a spreadsheet
    with one row per item, and as a PDF whose item list flows over pages. Dates are day numbers
    and times microsecond counts, as in `Common`. */
module LslRoutes {
  import opened Common
  import opened SignatureDataUrl

  const DEFAULT_TEMPLATE_NAME := "Checklist de Treinamento Padrão"
  const DEFAULT_ITEMS: seq<string> := ["Item 1", "Item 2", "Item 3", "Item 4"]
  const PENDING := "Pendente"
  const DONE := "Concluído"

  /** A template; `itens_json` is the list of item names. */
  datatype Template = Template(id: nat, nome: string, itens: seq<string>)

  /** One signature: the decoded image, the signer's name and when it was given. */
  datatype Signature = Signature(data: Option<Bytes>, nome: Option<string>, time: Option<int>)

  const UNSIGNED := Signature(None, None, None)

  datatype Checklist = Checklist(
    id: nat, templateId: nat, dataPreenchimento: int, treinador: string, cargaHoraria: Option<string>,
    processoTreinamento: Option<string>, avaliador: string, setor: string, turno: string, status: string,
    funcionario: Signature, gestor: Signature)

  datatype Item = Item(id: nat, checklistId: nat, nome: string, valor: Option<string>, observacoes: Option<string>)

  /** The fields of the creation form; `None` is a field the form did not send. */
  datatype CreateForm = CreateForm(avaliador: Option<string>, setor: Option<string>, turno: Option<string>,
                                   treinador: Option<string>, cargaHoraria: Option<string>,
                                   processoTreinamento: Option<string>)

  // ---------------------------------------------------------------------------
  // Creating a checklist
  // ---------------------------------------------------------------------------

  /** Lines 30-34: the first template, or the default one (given id `freshId`) when there is none. */
  function TemplateFor(templates: seq<Template>, freshId: nat): (t: Template)
    ensures templates != [] ==> t == templates[0]
    ensures templates == [] ==> t.id == freshId && t.nome == DEFAULT_TEMPLATE_NAME && |t.itens| == 4
                                && forall i :: 0 <= i < 4 ==> t.itens[i] == "Item " + NatToString(i + 1)
  {
    if templates != [] then templates[0] else Template(freshId, DEFAULT_TEMPLATE_NAME, DEFAULT_ITEMS)
  }

  /** Lines 36-44: the new checklist; the date is the column default and the status 'Pendente'. */
  function NewChecklist(id: nat, templateId: nat, form: CreateForm, today: int): Checklist
    requires form.avaliador.Some? && form.setor.Some? && form.turno.Some? && form.treinador.Some?
  {
    Checklist(id, templateId, today, form.treinador.value, form.cargaHoraria, form.processoTreinamento,
              form.avaliador.value, form.setor.value, form.turno.value, PENDING, UNSIGNED, UNSIGNED)
  }

  /** The items of a new checklist: one per template item name, in template order, unfilled. */
  function ItemRows(checklistId: nat, names: seq<string>, firstId: nat): seq<Item>
  {
    seq(|names|, k requires 0 <= k < |names| => Item(firstId + k, checklistId, names[k], None, None))
  }

  /** One item per name, in order, linked to the checklist, with nothing filled in. */
  lemma ItemRowsPerName(checklistId: nat, names: seq<string>, firstId: nat)
    ensures var rows := ItemRows(checklistId, names, firstId);
      |rows| == |names|
      && forall k :: 0 <= k < |names| ==>
           rows[k].nome == names[k] && rows[k].checklistId == checklistId && rows[k].id == firstId + k
           && rows[k].valor.None? && rows[k].observacoes.None?
  {
  }

  /** Lines 48-50: the loop adding one `ChecklistItem` per template item name. */
  method BuildItems(checklistId: nat, names: seq<string>, firstId: nat) returns (rows: seq<Item>)
    ensures rows == ItemRows(checklistId, names, firstId)
  {
    rows := [];
    for k := 0 to |names|
      invariant rows == ItemRows(checklistId, names[..k], firstId)
    {
      rows := rows + [Item(firstId + k, checklistId, names[k], None, None)];
    }
    assert names[..|names|] == names;
  }

  // ---------------------------------------------------------------------------
  // Filling and signing
  // ---------------------------------------------------------------------------

  function ValorKey(itemId: nat): string { "item_" + NatToString(itemId) + "_valor" }
  function ObsKey(itemId: nat): string { "item_" + NatToString(itemId) + "_obs" }

  const EMPLOYEE_SIGNATURE := "assinatura_funcionario_data"
  const EMPLOYEE_NAME := "nome_funcionario_assinatura"
  const MANAGER_SIGNATURE := "assinatura_gestor_data"
  const MANAGER_NAME := "nome_gestor_assinatura"

  /** Lines 61-63 for one row of the item table: the checklist's own items take the form's value
      and remark (absent fields become null); other rows are left alone. */
  function FillItem(item: Item, checklistId: nat, form: map<string, string>): Item
  {
    if item.checklistId == checklistId then
      item.(valor := FormGet(form, ValorKey(item.id)), observacoes := FormGet(form, ObsKey(item.id)))
    else item
  }

  function FilledItems(items: seq<Item>, checklistId: nat, form: map<string, string>): seq<Item>
  {
    seq(|items|, k requires 0 <= k < |items| => FillItem(items[k], checklistId, form))
  }

  /** Filling overwrites every item of the checklist from the form, keeps each item's identity,
      and leaves the items of other checklists untouched. */
  lemma FilledItemsOverwrite(items: seq<Item>, checklistId: nat, form: map<string, string>)
    ensures var r := FilledItems(items, checklistId, form);
      |r| == |items|
      && (forall k :: 0 <= k < |items| ==>
            r[k].id == items[k].id && r[k].checklistId == items[k].checklistId && r[k].nome == items[k].nome)
      && (forall k :: 0 <= k < |items| && items[k].checklistId == checklistId ==>
            r[k].valor == FormGet(form, ValorKey(items[k].id)) && r[k].observacoes == FormGet(form, ObsKey(items[k].id)))
      && (forall k :: 0 <= k < |items| && items[k].checklistId != checklistId ==> r[k] == items[k])
  {
  }

  /** Submitting the same form twice leaves the items as the first submission did. */
  lemma FillIdempotent(items: seq<Item>, checklistId: nat, form: map<string, string>)
    ensures FilledItems(FilledItems(items, checklistId, form), checklistId, form) == FilledItems(items, checklistId, form)
  {
  }

  /** Lines 61-63: the loop over the checklist's items. */
  method FillItemValues(items: seq<Item>, checklistId: nat, form: map<string, string>) returns (r: seq<Item>)
    ensures r == FilledItems(items, checklistId, form)
  {
    r := items;
    for k := 0 to |items|
      invariant |r| == |items|
      invariant forall j :: 0 <= j < k ==> r[j] == FillItem(items[j], checklistId, form)
      invariant forall j :: k <= j < |items| ==> r[j] == items[j]
    {
      if r[k].checklistId == checklistId {
        r := r[k := r[k].(valor := FormGet(form, ValorKey(r[k].id)), observacoes := FormGet(form, ObsKey(r[k].id)))];
      }
    }
  }

  /** Lines 67-80 for one signer: without a (non-empty) data URL the old signature stays; with
      one, the URL is split at its first comma and the payload decoded (`b64` stands for
      `base64.b64decode`); a URL without a comma or a payload that does not decode raises
      (`None`). */
  function Sign(previous: Signature, url: Option<string>, nome: Option<string>, now: int,
                b64: string -> Option<Bytes>): (r: Option<Signature>)
    ensures !Truthy(url) ==> r == Some(previous)
    ensures Truthy(url) ==>
      (r.None? <==> DecodeDataUrlUnrepaired(url.value, b64).None?)
      && (r.Some? ==> r.value == Signature(DecodeDataUrlUnrepaired(url.value, b64), nome, Some(now)))
  {
    if !Truthy(url) then Some(previous)
    else
      match DecodeDataUrlUnrepaired(url.value, b64)
      case None => None
      case Some(bytes) => Some(Signature(Some(bytes), nome, Some(now)))
  }

  /** A canvas data URL whose payload the decoder accepts is stored with its signer and time. */
  lemma SignCanvasUrl(previous: Signature, header: string, payload: string, nome: Option<string>, now: int,
                      b64: string -> Option<Bytes>)
    requires ',' !in header && b64(payload).Some?
    ensures Sign(previous, Some(header + [','] + payload), nome, now, b64) == Some(Signature(b64(payload), nome, Some(now)))
  {
    SplitHeaderRoundTrip(header, payload);
  }

  /** Lines 66-82: both signatures, then the status; `None` when a signature raises. */
  function SignedChecklist(c: Checklist, form: map<string, string>, now: int, b64: string -> Option<Bytes>)
    : (r: Option<Checklist>)
    ensures r.Some? ==> r.value == c.(funcionario := r.value.funcionario, gestor := r.value.gestor, status := DONE)
  {
    match Sign(c.funcionario, FormGet(form, EMPLOYEE_SIGNATURE), FormGet(form, EMPLOYEE_NAME), now, b64)
    case None => None
    case Some(f) =>
      match Sign(c.gestor, FormGet(form, MANAGER_SIGNATURE), FormGet(form, MANAGER_NAME), now, b64)
      case None => None
      case Some(g) => Some(c.(funcionario := f, gestor := g, status := DONE))
  }

  /** A form without signatures only completes the checklist: both signatures stay as they were. */
  lemma UnsignedFormKeepsSignatures(c: Checklist, form: map<string, string>, now: int, b64: string -> Option<Bytes>)
    requires !Truthy(FormGet(form, EMPLOYEE_SIGNATURE)) && !Truthy(FormGet(form, MANAGER_SIGNATURE))
    ensures SignedChecklist(c, form, now, b64) == Some(c.(status := DONE))
  {
  }

  // ---------------------------------------------------------------------------
  // The spreadsheet
  // ---------------------------------------------------------------------------

  /** A spreadsheet cell; `Day` and `Moment` are the formatted date and date-time. */
  datatype Cell = Text(text: string) | Number(n: int) | Day(day: int) | Moment(time: int) | Null

  type Row = map<string, Cell>

  function OptionalText(s: Option<string>): Cell
  {
    if s.Some? then Text(s.value) else Null
  }

  /** The signing time, or 'N/A'. */
  function MomentOrNA(t: Option<int>): Cell
  {
    if t.Some? then Moment(t.value) else Text("N/A")
  }

  /** `base_data` (lines 205-219). */
  function BaseRow(c: Checklist): Row
  {
    map["Checklist ID" := Number(c.id), "Data Preenchimento" := Day(c.dataPreenchimento),
        "Treinador" := Text(c.treinador), "Carga Horária" := OptionalText(c.cargaHoraria),
        "Processo de Treinamento" := OptionalText(c.processoTreinamento), "Avaliador" := Text(c.avaliador),
        "Setor" := Text(c.setor), "Turno" := Text(c.turno), "Status" := Text(c.status),
        "Nome Funcionário Assinatura" := OptionalText(c.funcionario.nome),
        "Data/Hora Funcionário Assinatura" := MomentOrNA(c.funcionario.time),
        "Nome Gestor Assinatura" := OptionalText(c.gestor.nome),
        "Data/Hora Gestor Assinatura" := MomentOrNA(c.gestor.time)]
  }

  const ITEM_COLUMNS: set<string> := {"Item", "Valor Preenchido", "Observacoes"}

  /** Lines 223-226: a copy of the base row with the item's three columns added. */
  function ItemRow(base: Row, item: Item): Row
  {
    base["Item" := Text(item.nome)]["Valor Preenchido" := OptionalText(item.valor)]["Observacoes" := OptionalText(item.observacoes)]
  }

  /** Lines 221-229: one row per item, or the base row alone when there are no items. */
  function ExcelRows(base: Row, itens: seq<Item>): seq<Row>
  {
    if itens == [] then [base]
    else seq(|itens|, k requires 0 <= k < |itens| => ItemRow(base, itens[k]))
  }

  /** The sheet has one row per item (one row when there is none); every row repeats the
      checklist's columns and carries its item's name, value and remark. */
  lemma ExcelRowsExtendBase(c: Checklist, itens: seq<Item>)
    ensures var base, rows := BaseRow(c), ExcelRows(BaseRow(c), itens);
      |rows| == (if itens == [] then 1 else |itens|)
      && (forall k, key :: 0 <= k < |rows| && key in base ==> key in rows[k] && rows[k][key] == base[key])
      && (forall k :: 0 <= k < |itens| ==>
            rows[k]["Item"] == Text(itens[k].nome) && rows[k]["Valor Preenchido"] == OptionalText(itens[k].valor)
            && rows[k]["Observacoes"] == OptionalText(itens[k].observacoes))
  {
    var base := BaseRow(c);
    assert forall key :: key in base ==> key !in ITEM_COLUMNS;
  }

  /** `gerar_excel` (lines 203-229) for a checklist and its items. */
  method ExportRows(c: Checklist, itens: seq<Item>) returns (data: seq<Row>)
    ensures data == ExcelRows(BaseRow(c), itens)
  {
    var base := BaseRow(c);
    if itens == [] {
      return [base];
    }
    data := [];
    for k := 0 to |itens|
      invariant |data| == k && forall j :: 0 <= j < k ==> data[j] == ItemRow(base, itens[j])
    {
      var row := base["Item" := Text(itens[k].nome)];
      row := row["Valor Preenchido" := OptionalText(itens[k].valor)];
      row := row["Observacoes" := OptionalText(itens[k].observacoes)];
      data := data + [row];
    }
  }

  // ---------------------------------------------------------------------------
  // The PDF cursor
  // ---------------------------------------------------------------------------

  /** The height of a US-letter page in points. */
  const PAGE_HEIGHT := 792
  /** Where the first item is written: below the header block and the list title. */
  const FIRST_ITEM_Y := PAGE_HEIGHT - 230 - 20
  /** Where writing resumes on a new page. */
  const TOP_Y := PAGE_HEIGHT - 50

  /** Lines 116-119: after an item the cursor drops 50 points, and a new page starts when it falls
      below 100. */
  function NextItemY(y: int): int
  {
    if y - 50 < 100 then TOP_Y else y - 50
  }

  /** The cursor after `n` items: where item `n` is written. */
  function CursorAfter(n: nat): (y: int)
    ensures 100 <= y <= TOP_Y
  {
    if n == 0 then FIRST_ITEM_Y else NextItemY(CursorAfter(n - 1))
  }

  /** Every item's three lines (at y, y - 15 and y - 30) stay above 70 points, and an item
      continues on the same page exactly when there is room. */
  lemma ItemsStayOnPage(n: nat)
    ensures CursorAfter(n) - 30 >= 70
    ensures CursorAfter(n) >= 150 ==> CursorAfter(n + 1) == CursorAfter(n) - 50
    ensures CursorAfter(n) < 150 ==> CursorAfter(n + 1) == TOP_Y
  {
  }

  /** Lines 109-119: the item loop of `gerar_pdf`; `ys` are the positions the items are written
      at and `y` the cursor when the loop ends. */
  method ItemPositions(n: nat) returns (ys: seq<int>, y: int)
    ensures |ys| == n && forall k :: 0 <= k < n ==> ys[k] == CursorAfter(k) && ys[k] >= 100
    ensures y == CursorAfter(n)
  {
    y := PAGE_HEIGHT - 230;
    y := y - 20;
    ys := [];
    for k := 0 to n
      invariant |ys| == k && forall j :: 0 <= j < k ==> ys[j] == CursorAfter(j)
      invariant y == CursorAfter(k)
    {
      ys := ys + [y];
      y := y - 50;
      if y < 100 {
        y := PAGE_HEIGHT - 50;
      }
    }
  }

  /** Lines 124-165: where each signature block starts; a block needs 250 points and starts a
      new page otherwise, and the employee's block uses 200. */
  function SignatureTops(y: int, employee: bool, manager: bool): (r: (Option<int>, Option<int>))
    requires 100 <= y <= TOP_Y
    ensures r.0.Some? <==> employee
    ensures r.1.Some? <==> manager
    ensures r.0.Some? ==> 250 <= r.0.value <= TOP_Y
    ensures r.1.Some? ==> 250 <= r.1.value <= TOP_Y
  {
    var e := if employee then Some(if y < 250 then TOP_Y else y) else None;
    var y' := if employee then e.value - 200 else y;
    var m := if manager then Some(if y' < 250 then TOP_Y else y') else None;
    (e, m)
  }

  // ---------------------------------------------------------------------------
  // The tables
  // ---------------------------------------------------------------------------

  datatype CreateOutcome = BadRequest | Created(checklistId: nat)

  datatype FillOutcome = NotFound | Crashed | Filled

  class Store {
    var templates: seq<Template>
    var checklists: seq<Checklist>
    var items: seq<Item>
    var nextId: nat

    /** Checklist ids and the checklists items point to are below the counter. */
    ghost predicate Valid()
      reads this
    {
      && (forall k :: 0 <= k < |checklists| ==> checklists[k].id < nextId)
      && (forall k :: 0 <= k < |items| ==> items[k].checklistId < nextId)
    }

    constructor ()
      ensures Valid() && templates == [] && checklists == [] && items == []
    {
      templates, checklists, items := [], [], [];
      nextId := 1;
    }

    /** `criar_checklist` POST (lines 22-54). A missing required field fails the request before
        anything is written; otherwise the template is chosen or created, the checklist added and
        one item per template item name added after it. */
    method CreateChecklist(form: CreateForm, today: int) returns (outcome: CreateOutcome)
      requires Valid()
      modifies this
      ensures Valid()
      ensures outcome == BadRequest <==>
        form.avaliador.None? || form.setor.None? || form.turno.None? || form.treinador.None?
      ensures outcome == BadRequest ==>
        templates == old(templates) && checklists == old(checklists) && items == old(items)
      ensures outcome.Created? ==>
        var t := TemplateFor(old(templates), old(nextId));
        var cid := old(nextId) + 1;
        && outcome.checklistId == cid
        && templates == (if old(templates) == [] then [t] else old(templates))
        && checklists == old(checklists) + [NewChecklist(cid, t.id, form, today)]
        && items == old(items) + ItemRows(cid, t.itens, cid + 1)
    {
      if form.avaliador.None? || form.setor.None? || form.turno.None? || form.treinador.None? {
        return BadRequest;
      }
      var template := TemplateFor(templates, nextId);
      if templates == [] {
        templates := [template];
      }
      var cid := nextId + 1;
      checklists := checklists + [NewChecklist(cid, template.id, form, today)];
      var rows := BuildItems(cid, template.itens, cid + 1);
      ItemRowsPerName(cid, template.itens, cid + 1);
      items := items + rows;
      nextId := cid + 1 + |rows|;
      return Created(cid);
    }

    /** `preencher_checklist` POST (lines 59-85). The item values are committed first; a
        signature that raises then fails the request with the items saved and the checklist as it
        was. */
    method Fill(checklistId: nat, form: map<string, string>, now: int, b64: string -> Option<Bytes>)
      returns (outcome: FillOutcome)
      requires Valid()
      modifies this
      ensures Valid()
      ensures templates == old(templates) && nextId == old(nextId)
      ensures outcome == NotFound <==> IndexWhere(old(checklists), (c: Checklist) => c.id == checklistId).None?
      ensures outcome == NotFound ==> checklists == old(checklists) && items == old(items)
      ensures outcome != NotFound ==> items == FilledItems(old(items), checklistId, form)
      ensures outcome == Crashed ==> checklists == old(checklists)
      ensures outcome != NotFound ==>
        var k := IndexWhere(old(checklists), (c: Checklist) => c.id == checklistId).value;
        var signed := SignedChecklist(old(checklists)[k], form, now, b64);
        (outcome == Crashed <==> signed.None?)
        && (outcome == Filled ==> checklists == old(checklists)[k := signed.value])
    {
      var found := IndexWhere(checklists, (c: Checklist) => c.id == checklistId);
      if found.None? {
        return NotFound;
      }
      var k := found.value;
      items := FillItemValues(items, checklistId, form);
      var c := checklists[k];
      var f := Sign(c.funcionario, FormGet(form, EMPLOYEE_SIGNATURE), FormGet(form, EMPLOYEE_NAME), now, b64);
      if f.None? {
        return Crashed;
      }
      var g := Sign(c.gestor, FormGet(form, MANAGER_SIGNATURE), FormGet(form, MANAGER_NAME), now, b64);
      if g.None? {
        return Crashed;
      }
      checklists := checklists[k := c.(funcionario := f.value, gestor := g.value, status := DONE)];
      return Filled;
    }
  }
}
