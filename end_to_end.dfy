/** The runner against the mock backend: the outcomes the runner receives
    are the handlers' responses, parsed, so the verdict of every flow is
    decided by the server's fault rules and its random draws. */
module EndToEnd {
  import opened JsValues
  import Server
  import opened TestRunner

  /** What the runner sees of a response: `response.status` and
      `response.json()` of the body `res.json` sent. */
  function AsReply(r: Server.Response): Outcome
  {
    Reply(r.status, Server.BodyJson(r.body))
  }

  /** The registration request the runner sends, as the handler reads it. */
  const RunnerRequest := Server.CadastroRequest(
    Some(Str("Usuário Teste")), Some(Str("usuario@teste.com")), Some(Str("senha123")), Some(Str("teste-api")))

  /** The identifier the backend assigns for a draw. */
  function AssignedId(draw: int): int
  {
    draw + 10000
  }

  /** The draws of one flow: the registration draw, the catalog indexes of the
      login, update and orders handlers, and whether the orders fault fires. */
  datatype Draws = Draws(draw: int, loginErr: nat, alteracaoErr: nat, pedidosFault: bool, pedidosErr: nat)

  predicate ValidDraws(d: Draws)
  {
    0 <= d.draw < 90000 && d.loginErr < |Server.Catalog| && d.alteracaoErr < |Server.Catalog| &&
    d.pedidosErr < |Server.Catalog|
  }

  /** The query `?usuarioId=${id}` as the handlers read it: `Number` of the
      text of the identifier the runner holds. */
  function QueryOf(id: Json): Option<int>
  {
    ParseNumber(ToText(id))
  }

  /** The response each stage's request gets. */
  function ServerOutcome(s: Stage, d: Draws): Outcome
    requires ValidDraws(d)
  {
    var q := QueryOf(Num(AssignedId(d.draw)));
    match s
    case Cadastro => AsReply(Server.Cadastro(RunnerRequest, d.draw))
    case Login => AsReply(Server.Login(q, d.loginErr))
    case Alteracao => AsReply(Server.Alteracao(q, d.alteracaoErr))
    case Listagem => AsReply(Server.Pedidos(q, d.pedidosFault, d.pedidosErr))
  }

  /** The responses to a flow's requests, one per stage. */
  function ServerOutcomes(f: Flow, d: Draws): (r: seq<Outcome>)
    requires ValidDraws(d)
    ensures |r| == StageCount(f)
    ensures forall j :: 0 <= j < |r| ==> r[j] == ServerOutcome(Stages(f)[j], d)
  {
    [ServerOutcome(Cadastro, d), ServerOutcome(Login, d), ServerOutcome(Alteracao, d),
     ServerOutcome(Listagem, d)][..StageCount(f)]
  }

  /** The backend's rule for failing a stage: login fails for identifiers
      divisible by 5, the update for those divisible by 3, the orders listing
      when its fault fires; registration of the runner's request never fails. */
  predicate FaultRule(s: Stage, id: int, pedidosFault: bool)
  {
    match s
    case Cadastro => false
    case Login => id % 5 == 0
    case Alteracao => id % 3 == 0
    case Listagem => pedidosFault
  }

  /** The index of the first stage whose fault rule fires, or the number of
      stages when none does. */
  function FirstFault(stages: seq<Stage>, id: int, pedidosFault: bool): (k: nat)
    ensures k <= |stages|
  {
    if stages == [] then 0
    else if FaultRule(stages[0], id, pedidosFault) then 0
    else 1 + FirstFault(stages[1..], id, pedidosFault)
  }

  /** Registration always yields the assigned identifier, a truthy number. */
  lemma RegistrationYieldsId(d: Draws)
    requires ValidDraws(d)
    ensures RegisteredId(ServerOutcome(Cadastro, d)) == Some(Num(AssignedId(d.draw)))
    ensures Passes(Cadastro, ServerOutcome(Cadastro, d))
  {
    assert Truthy(RunnerRequest.nome) && Truthy(RunnerRequest.email) && Truthy(RunnerRequest.senha);
  }

  /** The handlers read back exactly the identifier the runner registered. */
  lemma QueryCarriesId(d: Draws)
    requires ValidDraws(d)
    ensures QueryOf(Num(AssignedId(d.draw))) == Some(AssignedId(d.draw))
    ensures Server.IdGiven(QueryOf(Num(AssignedId(d.draw))))
  {
    ParseIntToString(AssignedId(d.draw));
  }

  /** A stage passes exactly when the backend's fault rule does not fire. */
  lemma StagePassesIff(s: Stage, d: Draws)
    requires ValidDraws(d)
    ensures Passes(s, ServerOutcome(s, d)) <==> !FaultRule(s, AssignedId(d.draw), d.pedidosFault)
  {
    match s {
      case Cadastro => RegistrationYieldsId(d);
      case Login => LoginPassesIff(d);
      case Alteracao => AlteracaoPassesIff(d);
      case Listagem => ListagemPassesIff(d);
    }
  }

  lemma LoginPassesIff(d: Draws)
    requires ValidDraws(d)
    ensures Passes(Login, ServerOutcome(Login, d)) <==> AssignedId(d.draw) % 5 != 0
  {
    QueryCarriesId(d);
    var r := Server.Login(Some(AssignedId(d.draw)), d.loginErr);
    assert ServerOutcome(Login, d) == AsReply(r);
    if AssignedId(d.draw) % 5 == 0 {
      Server.CatalogNeverOk(r);
    }
  }

  lemma AlteracaoPassesIff(d: Draws)
    requires ValidDraws(d)
    ensures Passes(Alteracao, ServerOutcome(Alteracao, d)) <==> AssignedId(d.draw) % 3 != 0
  {
    QueryCarriesId(d);
    var r := Server.Alteracao(Some(AssignedId(d.draw)), d.alteracaoErr);
    assert ServerOutcome(Alteracao, d) == AsReply(r);
    if AssignedId(d.draw) % 3 == 0 {
      Server.CatalogNeverOk(r);
    }
  }

  lemma ListagemPassesIff(d: Draws)
    requires ValidDraws(d)
    ensures Passes(Listagem, ServerOutcome(Listagem, d)) <==> !d.pedidosFault
  {
    QueryCarriesId(d);
    var r := Server.Pedidos(Some(AssignedId(d.draw)), d.pedidosFault, d.pedidosErr);
    assert ServerOutcome(Listagem, d) == AsReply(r);
    if d.pedidosFault {
      Server.CatalogNeverOk(r);
    }
  }

  /** On the backend's responses, the runner's first failing stage is the
      first stage whose fault rule fires. */
  lemma {:induction false} FirstFailureIsFirstFault(stages: seq<Stage>, outcomes: seq<Outcome>, d: Draws)
    requires ValidDraws(d) && |stages| == |outcomes|
    requires forall j :: 0 <= j < |stages| ==> outcomes[j] == ServerOutcome(stages[j], d)
    ensures FirstFailure(stages, outcomes) == FirstFault(stages, AssignedId(d.draw), d.pedidosFault)
  {
    if stages != [] {
      StagePassesIff(stages[0], d);
      if Passes(stages[0], outcomes[0]) {
        assert forall j :: 0 <= j < |stages| - 1 ==> outcomes[1..][j] == outcomes[j + 1];
        FirstFailureIsFirstFault(stages[1..], outcomes[1..], d);
      }
    }
  }

  /** Against the backend, every flow stops at the first stage whose fault
      rule fires and then shows Falha; if none fires it shows Concluído. */
  lemma FlowVerdict(isMonitorMode: bool, f: Flow, d: Draws)
    requires ValidDraws(d)
    ensures var k := FirstFault(Stages(f), AssignedId(d.draw), d.pedidosFault);
            var run := FlowRun(isMonitorMode, f, ServerOutcomes(f, d));
            && run.failedAt == (if k < StageCount(f) then Some(Stages(f)[k]) else None)
            && FlowBadge(isMonitorMode, f, ServerOutcomes(f, d)) == (if k < StageCount(f) then Failed else Completed)
  {
    FirstFailureIsFirstFault(Stages(f), ServerOutcomes(f, d), d);
    FlowStops(isMonitorMode, f, ServerOutcomes(f, d));
  }

  /** The full flow passes exactly when the identifier is divisible by
      neither 5 nor 3 and the orders fault does not fire; otherwise it stops
      at login, update or listing, in that order of precedence. */
  lemma ListagemFlowVerdict(isMonitorMode: bool, d: Draws)
    requires ValidDraws(d)
    ensures var id := AssignedId(d.draw);
            FlowRun(isMonitorMode, FluxoListagem, ServerOutcomes(FluxoListagem, d)).failedAt ==
              if id % 5 == 0 then Some(Login)
              else if id % 3 == 0 then Some(Alteracao)
              else if d.pedidosFault then Some(Listagem)
              else None
    ensures FlowBadge(isMonitorMode, FluxoListagem, ServerOutcomes(FluxoListagem, d)) == Completed <==>
            AssignedId(d.draw) % 5 != 0 && AssignedId(d.draw) % 3 != 0 && !d.pedidosFault
  {
    FlowVerdict(isMonitorMode, FluxoListagem, d);
    assert Stages(FluxoListagem) == AllStages;
    FirstFaultAllStages(AssignedId(d.draw), d.pedidosFault);
  }

  lemma FirstFaultAllStages(id: int, pedidosFault: bool)
    ensures FirstFault(AllStages, id, pedidosFault) ==
            if id % 5 == 0 then 1 else if id % 3 == 0 then 2 else if pedidosFault then 3 else 4
  {
    var s1, s2, s3: seq<Stage> := [Login, Alteracao, Listagem], [Alteracao, Listagem], [Listagem];
    assert AllStages[1..] == s1 && s1[1..] == s2 && s2[1..] == s3 && s3[1..] == [];
    assert FirstFault(s3, id, pedidosFault) == if pedidosFault then 0 else 1;
    assert FirstFault(s2, id, pedidosFault) == if id % 3 == 0 then 0 else 1 + FirstFault(s3, id, pedidosFault);
  }

  /** In client mode a successful listing reports the three fixed orders. */
  lemma ClientListingMessage(d: Draws)
    requires ValidDraws(d) && !d.pedidosFault
    ensures ClientContent(Listagem, ServerOutcome(Listagem, d)) ==
            Summary(200, Accepted(Listagem, Server.BodyJson(Server.PedidosBody(Server.FixedOrders)))) &&
            Rendered(ClientContent(Listagem, ServerOutcome(Listagem, d))) ==
            Redaction.Object(map["status" := Num(200), "mensagem" := Str(NatToString(3) + " pedido(s) encontrado(s)")])
    ensures NatToString(3) == "3"
  {
    QueryCarriesId(d);
    assert NatToString(3) == "3";
  }

  /** In client mode a failed login shows the catalog's error text. */
  lemma ClientLoginErrorMessage(d: Draws)
    requires ValidDraws(d) && AssignedId(d.draw) % 5 == 0
    ensures ClientContent(Login, ServerOutcome(Login, d)) ==
            Summary(Server.Catalog[d.loginErr].0, Refused(Login, map["erro" := Str(Server.Catalog[d.loginErr].1)])) &&
            MessageText(Refused(Login, map["erro" := Str(Server.Catalog[d.loginErr].1)])) ==
            "Falha na autenticação: " + Server.Catalog[d.loginErr].1
  {
    QueryCarriesId(d);
    Server.CatalogNeverOk(Server.Login(Some(AssignedId(d.draw)), d.loginErr));
  }
}
