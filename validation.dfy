/**
  The checks the write routes make before they touch the database:
  `crear_contrato` (POST /api/contracts) rejects an unusable extraction,
  `actualizar_renovacion` (PATCH /api/contracts/<id>/renewal) accepts only
  two decisions, and `crear_contrato_manual` (POST /api/contracts/manual)
  defaults the notice days to 60.
 */
module Validation {
  import opened Wrappers
  import opened Calendar
  import opened Routes

  // ---------------------------------------------------------------------------
  // POST /api/contracts

  /** The keys `crear_contrato` reads from the extracted data. */
  const EXTRACTED_KEYS: seq<string> := ["inmobiliaria", "inquilino", "propietario", "fecha_inicio", "fecha_fin"]

  /**
    A JSON value of a request body or of the extractor's result dict, as far
    as the routes look at it: an object is a dict of text-or-null fields.
   */
  datatype Json = JNull | JBool(b: bool) | JInt(i: int) | JString(s: string) | JObject(fields: map<string, Option<string>>)

  /** Python's truth value of a Json value. */
  predicate Truthy(v: Json) {
    match v
    case JNull => false
    case JBool(b) => b
    case JInt(i) => i != 0
    case JString(s) => s != ""
    case JObject(m) => m != map[]
  }

  /** `res.get(k)`: null for a missing key. */
  function Get(res: map<string, Json>, k: string): Json {
    if k in res then res[k] else JNull
  }

  /** The dict `crear_contrato` starts from and keeps when the extractor raises or returns an empty dict. */
  const DEFAULT_RESULT: map<string, Json> := map["ok" := JBool(false), "model" := JNull, "raw" := JNull, "data" := JObject(map[])]

  /** `res.get("data")` as a dict of fields: empty when it is missing or not a dict. */
  function DataOf(res: map<string, Json>): map<string, Option<string>> {
    match Get(res, "data")
    case JObject(m) => m
    case _ => map[]
  }

  /** `d.get(k)`: None for a missing key and for a JSON null. */
  function Lookup(d: map<string, Option<string>>, k: string): Option<string> {
    if k in d then d[k] else None
  }

  /** The five fields `crear_contrato` inserts, in the order of its INSERT. */
  datatype NewContract = NewContract(
    inmobiliaria: Option<string>,
    inquilino: Option<string>,
    propietario: Option<string>,
    fechaInicio: Option<string>,
    fechaFin: Option<string>)

  /** The dict with the five keys that a NewContract's fields give. */
  function FieldsMap(f: NewContract): map<string, Option<string>> {
    map["inmobiliaria" := f.inmobiliaria, "inquilino" := f.inquilino, "propietario" := f.propietario,
        "fecha_inicio" := f.fechaInicio, "fecha_fin" := f.fechaFin]
  }

  /** The 400 response (no "texto_contrato") and the 422 response with its "ia_ok" and "ia_modelo". */
  datatype CreateError = MissingText | ExtractionFailed(iaOk: Json, iaModelo: Json)

  /** The `res` of `crear_contrato` once the extractor has run: its result, unless it raised (None) or was empty. */
  function ResultOf(extraction: Option<map<string, Json>>): map<string, Json> {
    if extraction.Some? && extraction.value != map[] then extraction.value else DEFAULT_RESULT
  }

  /**
    `crear_contrato` up to its INSERT. `texto` is `data.get("texto_contrato")`;
    `extraction` is the extractor's result dict, None when it raised.
   */
  function CrearContrato(texto: Option<string>, extraction: Option<map<string, Json>>): (r: Result<NewContract, CreateError>)
    ensures texto.None? || texto == Some("") ==> r == Err(MissingText)
    ensures texto.Some? && texto != Some("") ==>
      var res := ResultOf(extraction);
      (r.Ok? <==> Truthy(Get(res, "ok")) && exists i :: 0 <= i < |EXTRACTED_KEYS| && Lookup(DataOf(res), EXTRACTED_KEYS[i]).Some?) &&
      (r.Err? ==> r.error == ExtractionFailed(Get(res, "ok"), Get(res, "model"))) &&
      (r.Ok? ==> FieldsMap(r.value) == map k | k in EXTRACTED_KEYS :: Lookup(DataOf(res), k))
  {
    if texto.None? || texto.value == "" then Err(MissingText)
    else
      var res := ResultOf(extraction);
      var data := DataOf(res);
      var extraidos := if data != map[] then data else map k | k in EXTRACTED_KEYS :: None;
      if !Truthy(Get(res, "ok")) || forall k | k in EXTRACTED_KEYS :: Lookup(extraidos, k).None? then
        Err(ExtractionFailed(Get(res, "ok"), Get(res, "model")))
      else
        Ok(NewContract(
          Lookup(extraidos, "inmobiliaria"), Lookup(extraidos, "inquilino"), Lookup(extraidos, "propietario"),
          Lookup(extraidos, "fecha_inicio"), Lookup(extraidos, "fecha_fin")))
  }

  /** The model `Backend/ai.py` asks for. */
  const EXTRACTION_MODEL := "gpt-4.1-mini"

  /** A dict of fields as result values, a None field being null. */
  function AsValues(m: map<string, Option<string>>): map<string, Json> {
    map k | k in m :: if m[k].Some? then JString(m[k].value) else JNull
  }

  /**
    The dict the extractor returns: the parsed answer's five fields, or the
    five fields all None after a JSON error (`answer` is None).
   */
  function ExtractorResultAsWritten(answer: Option<NewContract>): Option<map<string, Json>> {
    match answer
    case None => Some(AsValues(FieldsMap(NewContract(None, None, None, None, None))))
    case Some(f) => Some(AsValues(FieldsMap(f)))
  }

  /**
    As written, every contract text is rejected with 422, `"ia_ok": null` and
    `"ia_modelo": null`, whatever the extractor found: the five-field dict
    has no "ok" and no "model" key.
   */
  lemma CreationAlwaysRejectedAsWritten(texto: string, answer: Option<NewContract>)
    requires texto != ""
    ensures CrearContrato(Some(texto), ExtractorResultAsWritten(answer)) == Err(ExtractionFailed(JNull, JNull))
  {
    var f := if answer.Some? then answer.value else NewContract(None, None, None, None, None);
    var res := AsValues(FieldsMap(f));
    assert "inmobiliaria" in res;
    assert ResultOf(ExtractorResultAsWritten(answer)) == res;
    assert "ok" !in res && "model" !in res;
  }

  /**
    The result shape `crear_contrato` expects: "ok" set when the answer
    parsed, the model's name, the fields under "data". The raw answer under
    "raw" is left out; `crear_contrato` does not read it.
   */
  function ExtractorResult(answer: Option<NewContract>): Option<map<string, Json>> {
    match answer
    case None => Some(map["ok" := JBool(false), "model" := JString(EXTRACTION_MODEL), "data" := JObject(map[])])
    case Some(f) => Some(map["ok" := JBool(true), "model" := JString(EXTRACTION_MODEL), "data" := JObject(FieldsMap(f))])
  }

  /** `crear_contrato` on an extractor that returns the expected shape. */
  function CrearContratoConIa(texto: Option<string>, answer: Option<NewContract>): Result<NewContract, CreateError> {
    CrearContrato(texto, ExtractorResult(answer))
  }

  /**
    With the expected result shape, a parsed answer with at least one field
    is stored exactly as extracted, and an unparsed or all-None answer is
    rejected.
   */
  lemma CreationWithExpectedShape(texto: string, answer: Option<NewContract>)
    requires texto != ""
    ensures var r := CrearContratoConIa(Some(texto), answer);
      (r.Ok? <==> answer.Some? && answer.value != NewContract(None, None, None, None, None)) &&
      (r.Ok? ==> r.value == answer.value)
  {
    var r := CrearContratoConIa(Some(texto), answer);
    if answer.Some? {
      var f := answer.value;
      var m := FieldsMap(f);
      assert Lookup(m, EXTRACTED_KEYS[0]) == f.inmobiliaria;
      assert Lookup(m, EXTRACTED_KEYS[1]) == f.inquilino;
      assert Lookup(m, EXTRACTED_KEYS[2]) == f.propietario;
      assert Lookup(m, EXTRACTED_KEYS[3]) == f.fechaInicio;
      assert Lookup(m, EXTRACTED_KEYS[4]) == f.fechaFin;
      if r.Ok? {
        assert r.value == f;
      }
    }
  }

  // ---------------------------------------------------------------------------
  // PATCH /api/contracts/<id>/renewal

  datatype Decision = Renueva | NoRenueva

  function DecisionName(d: Decision): string {
    match d
    case Renueva => "RENUEVA"
    case NoRenueva => "NO_RENUEVA"
  }

  /** `decision not in ["RENUEVA", "NO_RENUEVA"]` is the 400 response "decision inválida". */
  function ParseDecision(decision: Option<string>): (r: Option<Decision>)
    ensures r.Some? <==> decision == Some("RENUEVA") || decision == Some("NO_RENUEVA")
    ensures r.Some? ==> decision == Some(DecisionName(r.value))
  {
    if decision == Some("RENUEVA") then Some(Renueva)
    else if decision == Some("NO_RENUEVA") then Some(NoRenueva)
    else None
  }

  datatype DecisionError = InvalidDecision

  /**
    `actualizar_renovacion`: the contracts after
    `UPDATE contratos SET decision_renovacion = ? WHERE id = ?`, or the 400
    response. An id that matches no contract changes nothing.
   */
  function ActualizarRenovacion(contratos: seq<Contract>, id: int, decision: Option<string>): (r: Result<seq<Contract>, DecisionError>)
    ensures r.Err? <==> ParseDecision(decision).None?
    ensures r.Ok? ==> |r.value| == |contratos|
    ensures r.Ok? ==> forall i :: 0 <= i < |contratos| ==>
      r.value[i] == if contratos[i].id == id then contratos[i].(decisionRenovacion := decision) else contratos[i]
  {
    if ParseDecision(decision).None? then Err(InvalidDecision)
    else Ok(seq(|contratos|, i requires 0 <= i < |contratos| =>
      if contratos[i].id == id then contratos[i].(decisionRenovacion := decision) else contratos[i]))
  }

  lemma {:induction false} SublistMembers<T>(a: seq<T>, b: seq<T>, x: T)
    requires IsSublist(a, b) && x in a
    ensures x in b
    decreases |b|
  {
    if a[|a| - 1] == b[|b| - 1] && IsSublist(a[..|a| - 1], b[..|b| - 1]) {
      if x != a[|a| - 1] {
        assert x in a[..|a| - 1];
        SublistMembers(a[..|a| - 1], b[..|b| - 1], x);
      }
    } else {
      SublistMembers(a, b[..|b| - 1], x);
    }
  }

  lemma {:induction false} ContractsOfMembers(items: seq<Item>, item: Item)
    requires item in items
    ensures item.contract in ContractsOf(items)
    decreases |items|
  {
    if item != items[|items| - 1] {
      assert item in items[..|items| - 1];
      ContractsOfMembers(items[..|items| - 1], item);
    }
  }

  /** Once a decision is accepted for a contract, no alert lists that contract, on any day and for any threshold. */
  lemma DecisionSilencesAlerts(contratos: seq<Contract>, id: int, decision: Option<string>, hoy: CalDate, umbral: int)
    requires ActualizarRenovacion(contratos, id, decision).Ok?
    ensures forall item :: item in AlertItems(ActualizarRenovacion(contratos, id, decision).value, hoy, umbral) ==>
      item.contract.id != id
  {
    var updated := ActualizarRenovacion(contratos, id, decision).value;
    var alertas := AlertItems(updated, hoy, umbral);
    AlertsSound(updated, hoy, umbral);
    AlertsOrdered(updated, hoy, umbral);
    forall item | item in alertas
      ensures item.contract.id != id
    {
      ContractsOfMembers(alertas, item);
      SublistMembers(ContractsOf(alertas), updated, item.contract);
      var k :| 0 <= k < |alertas| && alertas[k] == item;
      assert Pending(item.contract);
    }
  }

  // ---------------------------------------------------------------------------
  // POST /api/contracts/manual

  /** The six parameters of the manual INSERT. */
  datatype ManualInsert = ManualInsert(
    inmobiliaria: Json,
    inquilino: Json,
    propietario: Json,
    fechaInicio: Json,
    fechaFin: Json,
    diasAviso: Json)

  /** The notice days stored when the request does not give them. */
  const DEFAULT_DIAS_AVISO := 60

  /** `data.get(k, default)`. */
  function GetOr(body: map<string, Json>, k: string, default: Json): Json {
    if k in body then body[k] else default
  }

  /**
    The parameters `crear_contrato_manual` inserts. A missing "dias_aviso"
    becomes 60; one given explicitly, null included, is passed on as it is;
    missing party and date keys become null.
   */
  function CrearContratoManual(body: map<string, Json>): (p: ManualInsert)
    ensures p.diasAviso == if "dias_aviso" in body then body["dias_aviso"] else JInt(60)
    ensures p.fechaFin == if "fecha_fin" in body then body["fecha_fin"] else JNull
    ensures p.fechaInicio == if "fecha_inicio" in body then body["fecha_inicio"] else JNull
    ensures p.inmobiliaria == if "inmobiliaria" in body then body["inmobiliaria"] else JNull
    ensures p.inquilino == if "inquilino" in body then body["inquilino"] else JNull
    ensures p.propietario == if "propietario" in body then body["propietario"] else JNull
  {
    ManualInsert(
      GetOr(body, "inmobiliaria", JNull), GetOr(body, "inquilino", JNull), GetOr(body, "propietario", JNull),
      GetOr(body, "fecha_inicio", JNull), GetOr(body, "fecha_fin", JNull),
      GetOr(body, "dias_aviso", JInt(DEFAULT_DIAS_AVISO)))
  }
}
