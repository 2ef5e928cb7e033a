/** The mock backend: the four route handlers and the fault catalog, as pure
    functions from a request and the random draws to a status and a JSON body.
    The draws of `Math.random` are parameters:
      - `draw` in [0, 90000) is `Math.floor(Math.random() * 90000)`;
      - `faultFires` is `Math.random() < 0.1` in the orders handler;
      - `errIndex` in [0, 4) is `Math.floor(Math.random() * erros.length)`. */
module Server {
  import opened JsValues

  datatype Order = Order(id: int, valorCentavos: int, data: string)

  /** The JSON bodies the handlers send. */
  datatype Body =
    | ErroBody(erro: string)
    | IdBody(usuarioId: int)
    | MensagemBody(mensagem: string)
    | PedidosBody(pedidos: seq<Order>)

  datatype Response = Response(status: int, body: Body)

  /** Fields of the POST body; `None` is a missing field. */
  datatype CadastroRequest = CadastroRequest(
    nome: Option<Json>, email: Option<Json>, senha: Option<Json>, origem: Option<Json>)

  /** The fixed fault catalog, in the order the handler indexes it. */
  const Catalog: seq<(int, string)> :=
    [(504, "Gateway Timeout"), (401, "Unauthorized"), (400, "Bad Request"), (500, "Internal Server Error")]

  const MissingData := Response(400, ErroBody("Dados incompletos"))
  const MissingId := Response(400, ErroBody("usuarioId não fornecido"))
  const LoginOk := Response(200, MensagemBody("Login realizado com sucesso"))
  const AlteracaoOk := Response(200, MensagemBody("Dados alterados com sucesso"))

  const FixedOrders: seq<Order> := [
    Order(1, 15000, "2023-01-15"),
    Order(2, 8990, "2023-02-20"),
    Order(3, 20050, "2023-03-10")
  ]

  /** One of the catalog's responses. */
  predicate IsCatalogError(r: Response)
  {
    r.body.ErroBody? && (r.status, r.body.erro) in Catalog
  }

  /** The JavaScript `%` operator on integers: the remainder takes the sign
      of the dividend (truncating division), unlike Dafny's `%`. */
  function JsRem(a: int, b: int): (r: int)
    requires b > 0
    ensures -b < r < b
    ensures a >= 0 ==> r >= 0
    ensures a < 0 ==> r <= 0
    ensures (a - r) % b == 0
  {
    if a >= 0 then
      ModUnique(a - a % b, b, a / b, 0);
      a % b
    else
      ModUnique(a + (-a) % b, b, -((-a) / b), 0);
      -((-a) % b)
  }

  /** Euclidean division has a unique remainder. */
  lemma ModUnique(x: int, b: int, q: int, r: int)
    requires b > 0 && 0 <= r < b && x == b * q + r
    ensures x % b == r
  {
    var q', r' := x / b, x % b;
    assert x == b * q' + r';
    assert b * (q - q') == r' - r;
    if q - q' >= 1 {
      assert false;
    } else if q - q' <= -1 {
      assert false;
    }
  }

  /** Both remainders agree on divisibility, so the handlers' rules carry over. */
  lemma JsRemZero(a: int, b: int)
    requires b > 0
    ensures JsRem(a, b) == 0 <==> a % b == 0
  {
    if a < 0 {
      var n := -a;
      if n % b == 0 {
        var q := n / b;
        assert n == b * q;
        ModUnique(a, b, -q, 0);
      }
      if a % b == 0 {
        var q := a / b;
        assert a == b * q;
        ModUnique(n, b, -q, 0);
      }
    }
  }

  /** `Number(req.query.usuarioId)` is truthy: present, a number and not 0. */
  predicate IdGiven(q: Option<int>): (given: bool)
    ensures given <==> Truthy(if q.Some? then Some(Num(q.value)) else None)
  {
    q.Some? && q.value != 0
  }

  /** `enviarErroAleatorio`: the catalog entry chosen by the draw. */
  function EnviarErroAleatorio(errIndex: nat): (r: Response)
    requires errIndex < |Catalog|
    ensures IsCatalogError(r)
    ensures r.status in {504, 401, 400, 500}
    ensures r != MissingId
  {
    Response(Catalog[errIndex].0, ErroBody(Catalog[errIndex].1))
  }

  /** The catalog index of a status, the inverse of the draw's choice. */
  function CatalogIndex(status: int): nat
  {
    if status == 504 then 0 else if status == 401 then 1 else if status == 400 then 2 else 3
  }

  /** The status alone determines which catalog entry was drawn. */
  lemma CatalogStatusDeterminesEntry(errIndex: nat)
    requires errIndex < |Catalog|
    ensures CatalogIndex(EnviarErroAleatorio(errIndex).status) == errIndex
  {
  }

  /** Every catalog response is an error status, never 2xx. */
  lemma CatalogNeverOk(r: Response)
    requires IsCatalogError(r)
    ensures !(200 <= r.status <= 299)
    ensures r.body.erro != "usuarioId não fornecido"
  {
  }

  /** POST /api/cadastro. */
  function Cadastro(req: CadastroRequest, draw: int): (r: Response)
    requires 0 <= draw < 90000
    ensures r == MissingData <==> !Truthy(req.nome) || !Truthy(req.email) || !Truthy(req.senha)
    ensures r != MissingData ==> r.status == 200 && r.body == IdBody(draw + 10000)
    ensures r.status == 200 ==> 10000 <= r.body.usuarioId <= 99999
  {
    if !Truthy(req.nome) || !Truthy(req.email) || !Truthy(req.senha) then MissingData
    else Response(200, IdBody(draw + 10000))
  }

  /** `origem` is never required: it has no effect on the response. */
  lemma CadastroIgnoresOrigem(req: CadastroRequest, origem: Option<Json>, draw: int)
    requires 0 <= draw < 90000
    ensures Cadastro(req.(origem := origem), draw) == Cadastro(req, draw)
  {
  }

  /** Every identifier from 10000 to 99999 is produced by exactly one draw. */
  lemma CadastroCoversIdRange(req: CadastroRequest, id: int, draw: int)
    requires Truthy(req.nome) && Truthy(req.email) && Truthy(req.senha)
    requires 10000 <= id <= 99999 && 0 <= draw < 90000
    ensures Cadastro(req, draw).body == IdBody(id) <==> draw == id - 10000
  {
  }

  /** GET /api/login. */
  function Login(q: Option<int>, errIndex: nat): (r: Response)
    requires errIndex < |Catalog|
    ensures !IdGiven(q) ==> r == MissingId
    ensures IdGiven(q) ==> (IsCatalogError(r) <==> q.value % 5 == 0)
    ensures IdGiven(q) && q.value % 5 != 0 ==> r == LoginOk
  {
    if !IdGiven(q) then MissingId
    else
      JsRemZero(q.value, 5);
      if JsRem(q.value, 5) == 0 then EnviarErroAleatorio(errIndex)
      else LoginOk
  }

  /** PUT /api/alteracao. */
  function Alteracao(q: Option<int>, errIndex: nat): (r: Response)
    requires errIndex < |Catalog|
    ensures !IdGiven(q) ==> r == MissingId
    ensures IdGiven(q) ==> (IsCatalogError(r) <==> q.value % 3 == 0)
    ensures IdGiven(q) && q.value % 3 != 0 ==> r == AlteracaoOk
  {
    if !IdGiven(q) then MissingId
    else
      JsRemZero(q.value, 3);
      if JsRem(q.value, 3) == 0 then EnviarErroAleatorio(errIndex)
      else AlteracaoOk
  }

  /** GET /api/pedidos. */
  function Pedidos(q: Option<int>, faultFires: bool, errIndex: nat): (r: Response)
    requires errIndex < |Catalog|
    ensures !IdGiven(q) ==> r == MissingId
    ensures IdGiven(q) ==> (IsCatalogError(r) <==> faultFires)
    ensures IdGiven(q) && !faultFires ==>
      && r.status == 200 && r.body.PedidosBody?
      && |r.body.pedidos| == 3
      && (forall i :: 0 <= i < 3 ==> r.body.pedidos[i].id == i + 1)
      && r.body.pedidos[0].data == "2023-01-15"
      && r.body.pedidos[1].data == "2023-02-20"
      && r.body.pedidos[2].data == "2023-03-10"
  {
    if !IdGiven(q) then MissingId
    else if faultFires then EnviarErroAleatorio(errIndex)
    else Response(200, PedidosBody(FixedOrders))
  }

  /** The identifier check comes before every fault rule: a missing, NaN or
      zero identifier gets the same answer from all three handlers, whatever
      the draws. */
  lemma MissingIdPrecedesFaults(q: Option<int>, faultFires: bool, e1: nat, e2: nat, e3: nat)
    requires !IdGiven(q)
    requires e1 < |Catalog| && e2 < |Catalog| && e3 < |Catalog|
    ensures Login(q, e1) == Alteracao(q, e2) == Pedidos(q, faultFires, e3) == MissingId
    ensures !IsCatalogError(MissingId)
  {
  }

  /** One order as `res.json` sends it: `{ id, valor, data }`. */
  function OrderJson(o: Order): Json
  {
    Obj(map["id" := Num(o.id), "valor" := Num(o.valorCentavos), "data" := Str(o.data)])
  }

  /** The body as `res.json` sends it and `response.json()` parses it. */
  function BodyJson(b: Body): (r: map<string, Json>)
    ensures |r| == 1
    ensures "erro" in r <==> b.ErroBody?
    ensures "usuarioId" in r <==> b.IdBody?
    ensures "mensagem" in r <==> b.MensagemBody?
    ensures "pedidos" in r <==> b.PedidosBody?
    ensures b.ErroBody? ==> r["erro"] == Str(b.erro)
    ensures b.IdBody? ==> r["usuarioId"] == Num(b.usuarioId)
    ensures b.MensagemBody? ==> r["mensagem"] == Str(b.mensagem)
    ensures b.PedidosBody? ==> r["pedidos"].Arr? && |r["pedidos"].elems| == |b.pedidos|
    ensures b.PedidosBody? ==> forall i :: 0 <= i < |b.pedidos| ==> r["pedidos"].elems[i] == OrderJson(b.pedidos[i])
  {
    match b
    case ErroBody(e) => map["erro" := Str(e)]
    case IdBody(id) => map["usuarioId" := Num(id)]
    case MensagemBody(m) => map["mensagem" := Str(m)]
    case PedidosBody(os) => map["pedidos" := Arr(seq(|os|, i requires 0 <= i < |os| => OrderJson(os[i])))]
  }
}
