/** The display filter of `adicionarResultado`: monitor mode shows the content
    as given; client mode hides identifiers, order lists and error details. */
module Redaction {
  import opened JsValues

  /** What `adicionarResultado` is given to display: a string or a plain object. */
  datatype Content = Text(text: string) | Object(props: map<string, Json>)

  const IdMarker := "usuarioId:"
  const Placeholder := "Processando requisição..."
  const IdStatus := "ID gerado com sucesso"

  /** `{ status: msg }`, the shape every rewritten `data` takes. */
  function StatusOnly(msg: string): Json
  {
    Obj(map["status" := Str(msg)])
  }

  /** `String(x.length)` for a truthy `x`: arrays and strings have a length,
      an object may carry a `length` property, anything else has none. */
  function LengthText(v: Option<Json>): (r: string)
    ensures v.Some? && v.value.Arr? ==> ParseNumber(r) == Some(|v.value.elems|)
    ensures v.Some? && v.value.Str? ==> ParseNumber(r) == Some(|v.value.s|)
  {
    match v
    case Some(Arr(es)) => ParseIntToString(|es|); IntToString(|es|)
    case Some(Str(s)) => ParseIntToString(|s|); IntToString(|s|)
    case Some(Obj(props)) => if "length" in props then ToText(props["length"]) else "undefined"
    case _ => "undefined"
  }

  /** The three checks on `data`, in source order; each sees the `data` the
      previous one may have replaced. */
  function RedactData(d: Json): (r: Json)
    ensures Truthy(Get(d, "usuarioId")) ==> r == StatusOnly(IdStatus)
    ensures !Truthy(Get(d, "usuarioId")) && Truthy(Get(d, "pedidos")) ==>
      r == StatusOnly(LengthText(Get(d, "pedidos")) + " pedidos encontrados")
    ensures !Truthy(Get(d, "usuarioId")) && !Truthy(Get(d, "pedidos")) && Truthy(Get(d, "erro")) ==>
      r == StatusOnly("Erro: " + ToText(Get(d, "erro").value))
    ensures !Truthy(Get(d, "usuarioId")) && !Truthy(Get(d, "pedidos")) && !Truthy(Get(d, "erro")) ==>
      r == d
  {
    var d1 := if Truthy(Get(d, "usuarioId")) then StatusOnly(IdStatus) else d;
    var d2 := if Truthy(Get(d1, "pedidos"))
      then StatusOnly(LengthText(Get(d1, "pedidos")) + " pedidos encontrados")
      else d1;
    if Truthy(Get(d2, "erro")) then StatusOnly("Erro: " + ToText(Get(d2, "erro").value)) else d2
  }

  /** The client-mode filter, on a copy of the object or on the string: a
      string comes back as it was or as the placeholder, and never discloses
      an identifier; an object keeps its keys and everything but `data`, and
      a truthy `data` is rewritten by RedactData. */
  function ClientFilter(c: Content): (r: Content)
    ensures r.Text? <==> c.Text?
    ensures c.Text? ==> (r == c || r == Text(Placeholder)) && !Contains(r.text, IdMarker)
    ensures c.Object? ==> r.props.Keys == c.props.Keys
    ensures c.Object? ==> forall k :: k in c.props && k != "data" ==> r.props[k] == c.props[k]
    ensures c.Object? && "data" in c.props && Truthy(Some(c.props["data"])) ==>
      r.props["data"] == RedactData(c.props["data"])
    ensures c.Object? && !("data" in c.props && Truthy(Some(c.props["data"]))) ==> r == c
  {
    match c
    case Text(s) => PlaceholderHasNoMarker(); if Contains(s, IdMarker) then Text(Placeholder) else c
    case Object(props) =>
      if "data" in props && Truthy(Some(props["data"]))
      then Object(props["data" := RedactData(props["data"])])
      else c
  }

  /** What `adicionarResultado` displays in the given mode: everything in
      monitor mode; in client mode the client filter's result, which a second
      pass would not change. */
  function Filter(isMonitorMode: bool, c: Content): (r: Content)
    ensures isMonitorMode ==> r == c
    ensures !isMonitorMode ==> r == ClientFilter(c) && Redacted(r)
  {
    if isMonitorMode then c
    else
      ClientFilterIdempotent(c);
      ClientFilter(c)
  }

  /** The content is already as the client filter leaves it. */
  predicate Redacted(c: Content)
  {
    ClientFilter(c) == c
  }

  /** The two modes display the same thing exactly when the content is
      already as the client filter leaves it. */
  lemma ModesAgreeIffRedacted(c: Content)
    ensures Filter(false, c) == Filter(true, c) <==> Redacted(c)
  {
  }

  lemma PlaceholderHasNoMarker()
    ensures !Contains(Placeholder, IdMarker)
  {
    if Contains(Placeholder, IdMarker) {
      assert IdMarker[9] == ':';
      ContainsChar(Placeholder, IdMarker, ':');
      assert false;
    }
  }

  /** Client mode on a string: masked exactly when it discloses an identifier,
      and the displayed string never does. */
  lemma {:induction false} ClientFilterText(s: string)
    ensures ClientFilter(Text(s)) == (if Contains(s, IdMarker) then Text(Placeholder) else Text(s))
    ensures !Contains(ClientFilter(Text(s)).text, IdMarker)
  {
    PlaceholderHasNoMarker();
  }

  /** Client mode on an object: only `data` may change, and when it does it
      becomes a `{ status }` object; an identifier takes precedence over
      orders, and orders over an error. */
  lemma ClientFilterObject(props: map<string, Json>)
    ensures ClientFilter(Object(props)).Object?
    ensures ClientFilter(Object(props)).props.Keys == props.Keys
    ensures forall k :: k in props && k != "data" ==> ClientFilter(Object(props)).props[k] == props[k]
    ensures "data" in props && Truthy(Some(props["data"])) &&
            (Truthy(Get(props["data"], "usuarioId")) || Truthy(Get(props["data"], "pedidos")) ||
             Truthy(Get(props["data"], "erro"))) ==>
      ClientFilter(Object(props)).props["data"].Obj? &&
      ClientFilter(Object(props)).props["data"].props.Keys == {"status"}
    ensures "data" in props && Truthy(Some(props["data"])) && Truthy(Get(props["data"], "usuarioId")) ==>
      ClientFilter(Object(props)).props["data"] == StatusOnly(IdStatus)
  {
  }

  /** The filtered `data` is left alone by a second pass. */
  lemma RedactDataIdempotent(d: Json)
    ensures RedactData(RedactData(d)) == RedactData(d)
    ensures Truthy(Some(d)) ==> Truthy(Some(RedactData(d)))
  {
  }

  /** Client-mode filtering is idempotent. */
  lemma {:induction false} ClientFilterIdempotent(c: Content)
    ensures Redacted(ClientFilter(c))
  {
    match c
    case Text(s) =>
      PlaceholderHasNoMarker();
    case Object(props) =>
      if "data" in props && Truthy(Some(props["data"])) {
        RedactDataIdempotent(props["data"]);
        var props' := props["data" := RedactData(props["data"])];
        assert props'["data" := RedactData(props'["data"])] == props';
      }
  }
}
