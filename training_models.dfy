/** The training-tracking application (checklist_app): users with a perfil, sectors,
    collaborators in training, checklist templates by tipo, and the saved answer sheets.
    The three blueprints (checklists, admin, main) work on one shared database. */
module TrainingModels {
  import opened Common

  const IN_TRAINING := "em_treinamento"
  const ADMINISTRATOR := "administrador"
  const COORDINATOR := "coordenador"
  const LEADER := "lider"
  const EVALUATOR := "avaliador"
  const DAILY := "diario"
  const WEEKLY := "semanal"
  const APPROVED := "Aprovado"
  const REJECTED := "Reprovado"

  datatype Usuario = Usuario(id: nat, nome: string, login: string, senha: string, perfil: string)

  datatype Setor = Setor(id: nat, nome: string)

  datatype Colaborador = Colaborador(id: nat, nome: string, dataInicio: int, status: string,
                                     setorId: nat, liderId: nat)

  /** `itens` is the JSON list of item texts. */
  datatype ChecklistModelo = ChecklistModelo(id: nat, tipo: string, itens: seq<string>)

  /** One filled sheet: `respostas` maps each item text to the submitted value (JSON null when absent),
      `assinaturas` is the JSON list of signatures. */
  datatype ChecklistRespostas = ChecklistRespostas(
    id: nat,
    dataPreenchimento: int,
    observacoes: Option<string>,
    assinaturas: seq<Option<string>>,
    respostas: map<string, Option<string>>,
    pontuacaoFinal: int,
    situacao: Option<string>,
    colaboradorId: nat,
    modeloId: nat)

  /** Flask-Login's `current_user`: anonymous, or a logged-in user row. */
  datatype CurrentUser = Anonymous | LoggedIn(user: Usuario)

  /** The calendar day of a timestamp (SQL `date(...)`). */
  function DayOf(t: int): int
  {
    t / DAY
  }

  /** The position of the user with id `id` (`Usuario.query.get(id)`). */
  function UsuarioIndex(usuarios: seq<Usuario>, id: nat): (r: Option<nat>)
    ensures r.Some? ==> r.value < |usuarios| && usuarios[r.value].id == id
    ensures r.None? <==> forall u :: u in usuarios ==> u.id != id
  {
    IndexWhere(usuarios, (u: Usuario) => u.id == id)
  }

  /** Sector names are unique (`unique=True` on `Setor.nome`). */
  ghost predicate UniqueSectorNames(setores: seq<Setor>)
  {
    forall i, j :: 0 <= i < j < |setores| ==> setores[i].nome != setores[j].nome
  }

  /** Logins are unique (`unique=True` on `Usuario.login`). */
  ghost predicate UniqueLogins(usuarios: seq<Usuario>)
  {
    forall i, j :: 0 <= i < j < |usuarios| ==> usuarios[i].login != usuarios[j].login
  }

  /** Every template id was handed out before `next`. */
  ghost predicate ModeloIdsBelow(modelos: seq<ChecklistModelo>, next: nat)
  {
    forall i :: 0 <= i < |modelos| ==> modelos[i].id < next
  }

  /** The tables of the training database; `nextId` stands for the autoincrement keys. */
  class TrainingDb {
    var usuarios: seq<Usuario>
    var setores: seq<Setor>
    var colaboradores: seq<Colaborador>
    var modelos: seq<ChecklistModelo>
    var respostas: seq<ChecklistRespostas>
    var nextId: nat

    /** The unique constraints hold and new rows get ids above every template's. */
    ghost predicate Valid()
      reads this
    {
      UniqueSectorNames(setores) && UniqueLogins(usuarios) && ModeloIdsBelow(modelos, nextId)
    }

    constructor()
      ensures Valid()
      ensures usuarios == [] && setores == [] && colaboradores == [] && modelos == [] && respostas == []
    {
      usuarios, setores, colaboradores, modelos, respostas := [], [], [], [], [];
      nextId := 1;
    }
  }
}
