/** The patient profile screen's daily-activity checkboxes: the
    priority-ordered substring map from activity descriptions to five slots,
    the fold that fills the slots from the day's activities, the
    complete-or-create decision of `handleCheck`, and each checkbox's points
    and disabled rule. */
module Activities {
  import opened Common
  import opened Text
  import opened Domain

  /** A day's activity record. */
  datatype Atividade = Atividade(
    id: int,
    pacienteId: int,
    descricao: string,
    pontos: int,
    data: string,
    concluida: bool)

  /** The five checkbox slots. */
  datatype AtividadesState = AtividadesState(
    escovouCafe: bool,
    escovouAlmoco: bool,
    escovouJantar: bool,
    marcouAvaliacao: bool,
    realizouLimpeza: bool)

  /** The name of one slot, in the order the substring tests run. */
  datatype Campo = EscovouCafe | EscovouAlmoco | EscovouJantar | MarcouAvaliacao | RealizouLimpeza

  /** The body sent to the create endpoint. */
  datatype NovaAtividade = NovaAtividade(
    pacienteId: int,
    descricao: string,
    pontos: int,
    data: string,
    concluida: bool)

  /** The remote call `handleCheck` makes, if any. */
  datatype AtividadeCall = MarcarComoConcluida(id: int) | Create(atividade: NovaAtividade)

  const AllUnchecked: AtividadesState := AtividadesState(false, false, false, false, false)

  function Get(s: AtividadesState, c: Campo): bool
  {
    match c
    case EscovouCafe => s.escovouCafe
    case EscovouAlmoco => s.escovouAlmoco
    case EscovouJantar => s.escovouJantar
    case MarcouAvaliacao => s.marcouAvaliacao
    case RealizouLimpeza => s.realizouLimpeza
  }

  /** `{ ...s, [c]: v }`: one slot set, the other four kept. */
  function With(s: AtividadesState, c: Campo, v: bool): (r: AtividadesState)
    ensures Get(r, c) == v
    ensures forall o :: o != c ==> Get(r, o) == Get(s, o)
  {
    match c
    case EscovouCafe => s.(escovouCafe := v)
    case EscovouAlmoco => s.(escovouAlmoco := v)
    case EscovouJantar => s.(escovouJantar := v)
    case MarcouAvaliacao => s.(marcouAvaliacao := v)
    case RealizouLimpeza => s.(realizouLimpeza := v)
  }

  /** Position of a slot in the chain of substring tests. */
  function Rank(c: Campo): nat
  {
    match c
    case EscovouCafe => 0
    case EscovouAlmoco => 1
    case EscovouJantar => 2
    case MarcouAvaliacao => 3
    case RealizouLimpeza => 4
  }

  /** The substring that selects a slot. */
  function Keyword(c: Campo): string
  {
    match c
    case EscovouCafe => "café da manhã"
    case EscovouAlmoco => "almoço"
    case EscovouJantar => "jantar"
    case MarcouAvaliacao => "avaliação"
    case RealizouLimpeza => "limpeza"
  }

  /** The slot a description updates: the first keyword, in test order, that
      the description contains; none if it contains no keyword. */
  function CampoOf(descricao: string): (r: Option<Campo>)
    ensures r.Some? ==> OccursIn(Keyword(r.value), descricao)
    ensures r.Some? ==> forall o :: Rank(o) < Rank(r.value) ==> !OccursIn(Keyword(o), descricao)
    ensures r.None? <==> forall o :: !OccursIn(Keyword(o), descricao)
  {
    if Includes(descricao, "café da manhã") then Some(EscovouCafe)
    else if Includes(descricao, "almoço") then Some(EscovouAlmoco)
    else if Includes(descricao, "jantar") then Some(EscovouJantar)
    else if Includes(descricao, "avaliação") then Some(MarcouAvaliacao)
    else if Includes(descricao, "limpeza") then Some(RealizouLimpeza)
    else None
  }

  /** One step of the `forEach`: the matched slot takes the record's
      completion flag; an unmatched description changes nothing. */
  function ApplyAtividade(s: AtividadesState, atv: Atividade): (r: AtividadesState)
    ensures forall c :: Get(r, c) != Get(s, c) ==> CampoOf(atv.descricao) == Some(c) && Get(r, c) == atv.concluida
    ensures CampoOf(atv.descricao).Some? ==> Get(r, CampoOf(atv.descricao).value) == atv.concluida
  {
    match CampoOf(atv.descricao)
    case Some(c) => With(s, c, atv.concluida)
    case None => s
  }

  /** The slots after applying the day's activities, in list order, to a
      copy of `base`. */
  function MapAtividades(base: AtividadesState, atividades: seq<Atividade>): AtividadesState
  {
    if |atividades| == 0 then base
    else ApplyAtividade(MapAtividades(base, atividades[..|atividades| - 1]), atividades[|atividades| - 1])
  }

  /** The mapping loop of `carregarDados`. */
  method MapearAtividades(base: AtividadesState, atividadesHoje: seq<Atividade>)
    returns (atividadesState: AtividadesState)
    ensures atividadesState == MapAtividades(base, atividadesHoje)
  {
    atividadesState := base;
    for i := 0 to |atividadesHoje|
      invariant atividadesState == MapAtividades(base, atividadesHoje[..i])
    {
      var atv := atividadesHoje[i];
      if Includes(atv.descricao, "café da manhã") {
        atividadesState := atividadesState.(escovouCafe := atv.concluida);
      } else if Includes(atv.descricao, "almoço") {
        atividadesState := atividadesState.(escovouAlmoco := atv.concluida);
      } else if Includes(atv.descricao, "jantar") {
        atividadesState := atividadesState.(escovouJantar := atv.concluida);
      } else if Includes(atv.descricao, "avaliação") {
        atividadesState := atividadesState.(marcouAvaliacao := atv.concluida);
      } else if Includes(atv.descricao, "limpeza") {
        atividadesState := atividadesState.(realizouLimpeza := atv.concluida);
      }
      assert atividadesHoje[..i + 1][..i] == atividadesHoje[..i];
    }
    assert atividadesHoje[..|atividadesHoje|] == atividadesHoje;
  }

  /** A slot no activity of the list selects keeps its value from `base`:
      slots are copied, not reset. */
  lemma {:induction false} MapKeepsUnmatched(base: AtividadesState, atividades: seq<Atividade>, c: Campo)
    requires forall i :: 0 <= i < |atividades| ==> CampoOf(atividades[i].descricao) != Some(c)
    ensures Get(MapAtividades(base, atividades), c) == Get(base, c)
  {
    if |atividades| > 0 {
      var init := atividades[..|atividades| - 1];
      assert forall i :: 0 <= i < |init| ==> init[i] == atividades[i];
      MapKeepsUnmatched(base, init, c);
    }
  }

  /** When several activities select one slot, the last of them decides it. */
  lemma {:induction false} MapLastWins(base: AtividadesState, atividades: seq<Atividade>, j: nat)
    requires j < |atividades| && CampoOf(atividades[j].descricao).Some?
    requires forall k :: j < k < |atividades| ==>
      CampoOf(atividades[k].descricao) != CampoOf(atividades[j].descricao)
    ensures Get(MapAtividades(base, atividades), CampoOf(atividades[j].descricao).value)
            == atividades[j].concluida
  {
    var c := CampoOf(atividades[j].descricao).value;
    var init := atividades[..|atividades| - 1];
    if j == |atividades| - 1 {
    } else {
      assert init[j] == atividades[j];
      MapLastWins(base, init, j);
    }
  }

  // ---------------------------------------------------------------------
  // The five checkboxes

  /** The common start of the three brushing descriptions. */
  const BrushedAfter := "Escovou os dentes após o "

  /** The description each checkbox sends (also its label). Each literal is
      written as the text around its keyword plus the keyword itself, so that
      the keyword's position is visible to the prover. */
  function Descricao(c: Campo): (r: string)
    ensures OccursIn(Keyword(c), r)
  {
    match c
    case EscovouCafe =>
      OccursAfter(BrushedAfter, "café da manhã");
      BrushedAfter + "café da manhã"
    case EscovouAlmoco =>
      OccursAfter(BrushedAfter, "almoço");
      BrushedAfter + "almoço"
    case EscovouJantar =>
      OccursAfter(BrushedAfter, "jantar");
      BrushedAfter + "jantar"
    case MarcouAvaliacao =>
      OccursBetween("Marcou uma ", "avaliação", " dental");
      "Marcou uma " + "avaliação" + " dental"
    case RealizouLimpeza =>
      OccursBetween("Realizou ", "limpeza", " dental");
      "Realizou " + "limpeza" + " dental"
  }

  /** The points each checkbox awards: one per brushing, two for booking an
      evaluation, three for a cleaning. */
  function Pontos(c: Campo): (p: nat)
    ensures p == 1 <==> c in {EscovouCafe, EscovouAlmoco, EscovouJantar}
    ensures c == MarcouAvaliacao ==> p == 2
    ensures c == RealizouLimpeza ==> p == 3
  {
    match c
    case EscovouCafe => 1
    case EscovouAlmoco => 1
    case EscovouJantar => 1
    case MarcouAvaliacao => 2
    case RealizouLimpeza => 3
  }

  /** A checkbox is disabled once its slot is set or while a save runs. */
  predicate Disabled(s: AtividadesState, c: Campo, salvando: bool)
    ensures !Disabled(s, c, salvando) <==> !Get(s, c) && !salvando
  {
    Get(s, c) || salvando
  }

  lemma CafeRoundTrip()
    ensures CampoOf(Descricao(EscovouCafe)) == Some(EscovouCafe)
  {
    OccursAfter(BrushedAfter, Keyword(EscovouCafe));
  }

  lemma AlmocoRoundTrip()
    ensures CampoOf(Descricao(EscovouAlmoco)) == Some(EscovouAlmoco)
  {
    var d := Descricao(EscovouAlmoco);
    AbsentCharRulesOut(d, Keyword(EscovouCafe), 3);
    OccursAfter(BrushedAfter, Keyword(EscovouAlmoco));
  }

  lemma JantarRoundTrip()
    ensures CampoOf(Descricao(EscovouJantar)) == Some(EscovouJantar)
  {
    var d := Descricao(EscovouJantar);
    AbsentCharRulesOut(d, Keyword(EscovouCafe), 3);
    AbsentCharRulesOut(d, Keyword(EscovouAlmoco), 4);
    OccursAfter(BrushedAfter, Keyword(EscovouJantar));
  }

  /** The only `ç` of the evaluation description sits where "almoço" cannot. */
  lemma NoAlmocoInAvaliacao()
    ensures !OccursIn(Keyword(EscovouAlmoco), Descricao(MarcouAvaliacao))
  {
    // The description's only 'ç' is "avaliação"[6] and "almoço"[4], so
    // "almoço" could only start at "avaliação"[2]; there its 'm' would have
    // to meet "avaliação"[4], which is 'i'.
    AbsentByUniqueChar("Marcou uma ", "avaliação", " dental", Keyword(EscovouAlmoco), 4, 6, 2);
  }

  lemma AvaliacaoRoundTrip()
    ensures CampoOf(Descricao(MarcouAvaliacao)) == Some(MarcouAvaliacao)
  {
    var d := Descricao(MarcouAvaliacao);
    AbsentCharRulesOut(d, Keyword(EscovouCafe), 3);
    NoAlmocoInAvaliacao();
    AbsentCharRulesOut(d, Keyword(EscovouJantar), 0);
    OccursBetween("Marcou uma ", Keyword(MarcouAvaliacao), " dental");
  }

  lemma LimpezaRoundTrip()
    ensures CampoOf(Descricao(RealizouLimpeza)) == Some(RealizouLimpeza)
  {
    var d := Descricao(RealizouLimpeza);
    AbsentCharRulesOut(d, Keyword(EscovouCafe), 3);
    AbsentCharRulesOut(d, Keyword(EscovouAlmoco), 4);
    AbsentCharRulesOut(d, Keyword(EscovouJantar), 0);
    AbsentCharRulesOut(d, Keyword(MarcouAvaliacao), 6);
    OccursBetween("Realizou ", Keyword(RealizouLimpeza), " dental");
  }

  /** Each checkbox's own description is read back into its own slot. */
  lemma DescricaoRoundTrip(c: Campo)
    ensures CampoOf(Descricao(c)) == Some(c)
  {
    match c
    case EscovouCafe => CafeRoundTrip();
    case EscovouAlmoco => AlmocoRoundTrip();
    case EscovouJantar => JantarRoundTrip();
    case MarcouAvaliacao => AvaliacaoRoundTrip();
    case RealizouLimpeza => LimpezaRoundTrip();
  }

  // ---------------------------------------------------------------------
  // handleCheck

  /** `atividadesList.find(a => a.descricao === descricao)`: the first record
      with exactly that description. */
  function FindByDescricao(atividades: seq<Atividade>, descricao: string): (r: Option<nat>)
    ensures r.Some? ==> r.value < |atividades| && atividades[r.value].descricao == descricao
    ensures r.Some? ==> forall k :: 0 <= k < r.value ==> atividades[k].descricao != descricao
    ensures r.None? ==> forall k :: 0 <= k < |atividades| ==> atividades[k].descricao != descricao
    decreases |atividades|
  {
    if |atividades| == 0 then None
    else if atividades[0].descricao == descricao then Some(0)
    else match FindByDescricao(atividades[1..], descricao)
      case None => None
      case Some(k) => Some(k + 1)
  }

  /** The remote call `handleCheck` makes for a patient: complete the
      existing record if it is still open, nothing if it is already
      complete, and otherwise create a completed record worth `pontos`. */
  function CheckCall(atividades: seq<Atividade>, descricao: string, pontos: int,
                     pacienteId: int, agora: string): (r: Option<AtividadeCall>)
    ensures (exists k :: 0 <= k < |atividades| && atividades[k].descricao == descricao) ==>
      var i := FindByDescricao(atividades, descricao).value;
      r == if atividades[i].concluida then None else Some(MarcarComoConcluida(atividades[i].id))
    ensures (forall k :: 0 <= k < |atividades| ==> atividades[k].descricao != descricao) ==>
      r == Some(Create(NovaAtividade(pacienteId, descricao, pontos, agora, true)))
  {
    match FindByDescricao(atividades, descricao)
    case Some(i) =>
      if atividades[i].concluida then None else Some(MarcarComoConcluida(atividades[i].id))
    case None =>
      Some(Create(NovaAtividade(pacienteId, descricao, pontos, agora, true)))
  }

  /** The screen's state. */
  class PerfilPacienteScreen {
    var paciente: Option<Paciente>
    var atividades: AtividadesState
    var loading: bool
    var salvando: bool
    var atividadesList: seq<Atividade>

    constructor ()
      ensures paciente == None && atividades == AllUnchecked && loading && !salvando
      ensures atividadesList == []
    {
      paciente := None;
      atividades := AllUnchecked;
      loading := true;
      salvando := false;
      atividadesList := [];
    }

    /** Whether checkbox `c` is drawn disabled. */
    predicate CheckboxDisabled(c: Campo)
      reads this
      ensures CheckboxDisabled(c) <==> Get(atividades, c) || salvando
    {
      Disabled(atividades, c, salvando)
    }

    /** What `carregarDados` leaves behind: `base` is the slot state the
        calling closure captured, the rest what the services answered. */
    ghost predicate LoadedFrom(usuario: Option<Usuario>, pacienteRes: Result<Option<Paciente>>,
                               hoje: Result<seq<Atividade>>, base: AtividadesState,
                               paciente0: Option<Paciente>, slots0: AtividadesState,
                               list0: seq<Atividade>)
      reads this
    {
      if usuario.None? || !IsPatient(usuario.value) || pacienteRes.Err? then
        paciente == paciente0 && atividades == slots0 && atividadesList == list0
      else
        && paciente == pacienteRes.value
        && (if pacienteRes.value.None? || hoje.Err? then atividades == slots0 && atividadesList == list0
            else atividadesList == hoje.value && atividades == MapAtividades(base, hoje.value))
    }

    /** `carregarDados`. `base` is the `atividades` value of the render whose
        closure runs the load; `pacienteRes` and `hoje` are what the patient
        lookup and today's activity lookup answer if called. An empty patient
        answer is stored, and then reading its id throws before the
        activities are fetched. */
    method CarregarDados(base: AtividadesState, usuario: Option<Usuario>,
                         pacienteRes: Result<Option<Paciente>>, hoje: Result<seq<Atividade>>)
      returns (toLogin: bool)
      modifies this
      ensures !loading && (toLogin <==> usuario.None?) && salvando == old(salvando)
      ensures LoadedFrom(usuario, pacienteRes, hoje, base, old(paciente), old(atividades), old(atividadesList))
    {
      loading := true;
      toLogin := false;
      if usuario.None? {
        toLogin := true;
      } else if IsPatient(usuario.value) && pacienteRes.Ok? {
        paciente := pacienteRes.value;
        if pacienteRes.value.Some? && hoje.Ok? {
          atividadesList := hoje.value;
          var atividadesState := MapearAtividades(base, hoje.value);
          atividades := atividadesState;
        }
      }
      loading := false;
    }

    /** `handleCheck`. `call` is what the complete or create endpoint answers;
        the reload after a successful check gets the last three parameters and
        starts from the slots of the render that ran the handler. Returns the
        call made, if any. */
    method HandleCheck(campo: Campo, descricao: string, pontos: int, agora: string,
                       call: Outcome, usuario: Option<Usuario>,
                       pacienteRes: Result<Option<Paciente>>, hoje: Result<seq<Atividade>>)
      returns (request: Option<AtividadeCall>, checked: bool)
      modifies this
      ensures !salvando
      ensures old(paciente).None? ==>
        request == None && !checked && atividades == old(atividades)
        && paciente == old(paciente) && atividadesList == old(atividadesList) && loading == old(loading)
      ensures old(paciente).Some? ==>
        request == CheckCall(old(atividadesList), descricao, pontos, old(paciente).value.id, agora)
      ensures checked <==> old(paciente).Some? && (request.None? || call == Done)
      ensures !checked ==>
        atividades == old(atividades) && atividadesList == old(atividadesList)
        && paciente == old(paciente) && loading == old(loading)
      ensures checked ==> !loading
      ensures checked && (usuario.None? || !IsPatient(usuario.value) || pacienteRes.Err?
                          || pacienteRes.value.None? || hoje.Err?) ==>
        atividades == With(old(atividades), campo, true)
      ensures checked ==>
        LoadedFrom(usuario, pacienteRes, hoje, old(atividades), old(paciente),
                   With(old(atividades), campo, true), old(atividadesList))
    {
      salvando := true;
      request := None;
      checked := false;
      if paciente.None? {
        salvando := false;
        return;
      }
      var base := atividades;
      request := CheckCall(atividadesList, descricao, pontos, paciente.value.id, agora);
      if request.Some? && call == Failed {
        salvando := false;
        return;
      }
      checked := true;
      atividades := With(atividades, campo, true);
      var _ := CarregarDados(base, usuario, pacienteRes, hoje);
      salvando := false;
    }
  }

  /** A patient lookup that answers empty leaves the screen without a
      profile, so a following check makes no call and sets no slot. */
  method EmptyProfileThenCheck(screen: PerfilPacienteScreen, base: AtividadesState, u: Usuario,
                               hoje: Result<seq<Atividade>>, campo: Campo, agora: string, call: Outcome)
    returns (request: Option<AtividadeCall>, checked: bool)
    requires IsPatient(u)
    modifies screen
    ensures request == None && !checked
    ensures screen.paciente == None
  {
    var _ := screen.CarregarDados(base, Some(u), Ok(None), hoje);
    request, checked := screen.HandleCheck(campo, Descricao(campo), Pontos(campo), agora, call,
                                           Some(u), Ok(None), hoje);
  }
}
