// The story form's session state: the defaults it starts from, the dynamic
// lists the page grows and shrinks, the reset after a story is made, and the
// `form_data` record each of the four forms submits.

module FormView {
  import opened Base
  import opened Text
  import opened Splice
  import opened FormData

  // --------------------------------------------------------- session state

  /** The current value when there is one, the given one otherwise. */
  function Keep<T>(current: Option<T>, initial: Option<T>): Option<T> {
    if current.Some? then current else initial
  }

  datatype Values = Values(
    valueArea: Option<string>,
    titulo: Option<string>,
    regrasNegocio: Option<seq<string>>,
    apisServicos: Option<seq<string>>,
    objetivos: Option<seq<string>>,
    complexidade: Option<int>,
    criteriosAceitacao: Option<seq<string>>,
    validationErrors: Option<seq<string>>,
    isApi: Option<bool>,
    apiMetodo: Option<string>,
    apiEndpoint: Option<string>,
    apiQueryParams: Option<string>,
    apiPathParam: Option<string>,
    apiBody: Option<string>,
    apiFormatoResposta: Option<string>,
    objetivoComo: Option<string>,
    objetivoQuero: Option<string>,
    objetivoParaQue: Option<string>,
    hasDependencies: Option<bool>,
    dependencies: Option<string>,
    spikePergunta: Option<string>,
    spikeAlternativas: Option<seq<string>>,
    spikeTimebox: Option<int>,
    spikeOutput: Option<string>,
    spikeCriteriosSucesso: Option<seq<string>>,
    kaizenProcesso: Option<string>,
    kaizenSituacaoAtual: Option<string>,
    kaizenMeta: Option<string>,
    kaizenMetricas: Option<seq<string>>,
    kaizenImpacto: Option<string>,
    fixDescricao: Option<string>,
    fixPassosReproduzir: Option<seq<string>>,
    fixComportamentoEsperado: Option<string>,
    fixComportamentoAtual: Option<string>,
    fixAmbiente: Option<string>,
    fixSeveridade: Option<string>,
    fixLogs: Option<string>)

  const Unset: Values := Values(None, None, None, None, None, None, None, None, None, None, None, None, None, None, None, None, None, None, None, None, None, None, None, None, None, None, None, None, None, None, None, None, None, None, None, None, None)

  const InitialValues: Values := Values(
    Some("Business"),
    Some(""),
    Some([""]),
    Some([""]),
    Some([""]),
    Some(5),
    Some([""]),
    Some([]),
    Some(false),
    Some("GET"),
    Some(""),
    Some(""),
    Some(""),
    Some(""),
    Some(""),
    Some(""),
    Some(""),
    Some(""),
    Some(false),
    Some(""),
    Some(""),
    Some([""]),
    Some(8),
    Some("Documento de decisão"),
    Some([""]),
    Some(""),
    Some(""),
    Some(""),
    Some([""]),
    Some(""),
    Some(""),
    Some([""]),
    Some(""),
    Some(""),
    Some("Produção"),
    Some("Média"),
    Some(""))

  function Initialized(v: Values): Values {
    Values(
      Keep(v.valueArea, InitialValues.valueArea),
      Keep(v.titulo, InitialValues.titulo),
      Keep(v.regrasNegocio, InitialValues.regrasNegocio),
      Keep(v.apisServicos, InitialValues.apisServicos),
      Keep(v.objetivos, InitialValues.objetivos),
      Keep(v.complexidade, InitialValues.complexidade),
      Keep(v.criteriosAceitacao, InitialValues.criteriosAceitacao),
      Keep(v.validationErrors, InitialValues.validationErrors),
      Keep(v.isApi, InitialValues.isApi),
      Keep(v.apiMetodo, InitialValues.apiMetodo),
      Keep(v.apiEndpoint, InitialValues.apiEndpoint),
      Keep(v.apiQueryParams, InitialValues.apiQueryParams),
      Keep(v.apiPathParam, InitialValues.apiPathParam),
      Keep(v.apiBody, InitialValues.apiBody),
      Keep(v.apiFormatoResposta, InitialValues.apiFormatoResposta),
      Keep(v.objetivoComo, InitialValues.objetivoComo),
      Keep(v.objetivoQuero, InitialValues.objetivoQuero),
      Keep(v.objetivoParaQue, InitialValues.objetivoParaQue),
      Keep(v.hasDependencies, InitialValues.hasDependencies),
      Keep(v.dependencies, InitialValues.dependencies),
      Keep(v.spikePergunta, InitialValues.spikePergunta),
      Keep(v.spikeAlternativas, InitialValues.spikeAlternativas),
      Keep(v.spikeTimebox, InitialValues.spikeTimebox),
      Keep(v.spikeOutput, InitialValues.spikeOutput),
      Keep(v.spikeCriteriosSucesso, InitialValues.spikeCriteriosSucesso),
      Keep(v.kaizenProcesso, InitialValues.kaizenProcesso),
      Keep(v.kaizenSituacaoAtual, InitialValues.kaizenSituacaoAtual),
      Keep(v.kaizenMeta, InitialValues.kaizenMeta),
      Keep(v.kaizenMetricas, InitialValues.kaizenMetricas),
      Keep(v.kaizenImpacto, InitialValues.kaizenImpacto),
      Keep(v.fixDescricao, InitialValues.fixDescricao),
      Keep(v.fixPassosReproduzir, InitialValues.fixPassosReproduzir),
      Keep(v.fixComportamentoEsperado, InitialValues.fixComportamentoEsperado),
      Keep(v.fixComportamentoAtual, InitialValues.fixComportamentoAtual),
      Keep(v.fixAmbiente, InitialValues.fixAmbiente),
      Keep(v.fixSeveridade, InitialValues.fixSeveridade),
      Keep(v.fixLogs, InitialValues.fixLogs))
  }

  predicate Complete(v: Values) {
    && v.valueArea.Some?
    && v.titulo.Some?
    && v.regrasNegocio.Some?
    && v.apisServicos.Some?
    && v.objetivos.Some?
    && v.complexidade.Some?
    && v.criteriosAceitacao.Some?
    && v.validationErrors.Some?
    && v.isApi.Some?
    && v.apiMetodo.Some?
    && v.apiEndpoint.Some?
    && v.apiQueryParams.Some?
    && v.apiPathParam.Some?
    && v.apiBody.Some?
    && v.apiFormatoResposta.Some?
    && v.objetivoComo.Some?
    && v.objetivoQuero.Some?
    && v.objetivoParaQue.Some?
    && v.hasDependencies.Some?
    && v.dependencies.Some?
    && v.spikePergunta.Some?
    && v.spikeAlternativas.Some?
    && v.spikeTimebox.Some?
    && v.spikeOutput.Some?
    && v.spikeCriteriosSucesso.Some?
    && v.kaizenProcesso.Some?
    && v.kaizenSituacaoAtual.Some?
    && v.kaizenMeta.Some?
    && v.kaizenMetricas.Some?
    && v.kaizenImpacto.Some?
    && v.fixDescricao.Some?
    && v.fixPassosReproduzir.Some?
    && v.fixComportamentoEsperado.Some?
    && v.fixComportamentoAtual.Some?
    && v.fixAmbiente.Some?
    && v.fixSeveridade.Some?
    && v.fixLogs.Some?
  }

  predicate Extends(v: Values, w: Values) {
    && (v.valueArea.Some? ==> w.valueArea == v.valueArea)
    && (v.titulo.Some? ==> w.titulo == v.titulo)
    && (v.regrasNegocio.Some? ==> w.regrasNegocio == v.regrasNegocio)
    && (v.apisServicos.Some? ==> w.apisServicos == v.apisServicos)
    && (v.objetivos.Some? ==> w.objetivos == v.objetivos)
    && (v.complexidade.Some? ==> w.complexidade == v.complexidade)
    && (v.criteriosAceitacao.Some? ==> w.criteriosAceitacao == v.criteriosAceitacao)
    && (v.validationErrors.Some? ==> w.validationErrors == v.validationErrors)
    && (v.isApi.Some? ==> w.isApi == v.isApi)
    && (v.apiMetodo.Some? ==> w.apiMetodo == v.apiMetodo)
    && (v.apiEndpoint.Some? ==> w.apiEndpoint == v.apiEndpoint)
    && (v.apiQueryParams.Some? ==> w.apiQueryParams == v.apiQueryParams)
    && (v.apiPathParam.Some? ==> w.apiPathParam == v.apiPathParam)
    && (v.apiBody.Some? ==> w.apiBody == v.apiBody)
    && (v.apiFormatoResposta.Some? ==> w.apiFormatoResposta == v.apiFormatoResposta)
    && (v.objetivoComo.Some? ==> w.objetivoComo == v.objetivoComo)
    && (v.objetivoQuero.Some? ==> w.objetivoQuero == v.objetivoQuero)
    && (v.objetivoParaQue.Some? ==> w.objetivoParaQue == v.objetivoParaQue)
    && (v.hasDependencies.Some? ==> w.hasDependencies == v.hasDependencies)
    && (v.dependencies.Some? ==> w.dependencies == v.dependencies)
    && (v.spikePergunta.Some? ==> w.spikePergunta == v.spikePergunta)
    && (v.spikeAlternativas.Some? ==> w.spikeAlternativas == v.spikeAlternativas)
    && (v.spikeTimebox.Some? ==> w.spikeTimebox == v.spikeTimebox)
    && (v.spikeOutput.Some? ==> w.spikeOutput == v.spikeOutput)
    && (v.spikeCriteriosSucesso.Some? ==> w.spikeCriteriosSucesso == v.spikeCriteriosSucesso)
    && (v.kaizenProcesso.Some? ==> w.kaizenProcesso == v.kaizenProcesso)
    && (v.kaizenSituacaoAtual.Some? ==> w.kaizenSituacaoAtual == v.kaizenSituacaoAtual)
    && (v.kaizenMeta.Some? ==> w.kaizenMeta == v.kaizenMeta)
    && (v.kaizenMetricas.Some? ==> w.kaizenMetricas == v.kaizenMetricas)
    && (v.kaizenImpacto.Some? ==> w.kaizenImpacto == v.kaizenImpacto)
    && (v.fixDescricao.Some? ==> w.fixDescricao == v.fixDescricao)
    && (v.fixPassosReproduzir.Some? ==> w.fixPassosReproduzir == v.fixPassosReproduzir)
    && (v.fixComportamentoEsperado.Some? ==> w.fixComportamentoEsperado == v.fixComportamentoEsperado)
    && (v.fixComportamentoAtual.Some? ==> w.fixComportamentoAtual == v.fixComportamentoAtual)
    && (v.fixAmbiente.Some? ==> w.fixAmbiente == v.fixAmbiente)
    && (v.fixSeveridade.Some? ==> w.fixSeveridade == v.fixSeveridade)
    && (v.fixLogs.Some? ==> w.fixLogs == v.fixLogs)
  }
  /** Initialisation sets every key. */
  lemma InitializeCompletes(v: Values)
    ensures Complete(Initialized(v))
  {
  }

  /** Initialisation keeps the value of every key that was set. */
  lemma InitializeExtends(v: Values)
    ensures Extends(v, Initialized(v))
  {
  }

  /** Initialisation changes nothing exactly when every key is already set. */
  lemma InitializeFixesComplete(v: Values)
    ensures Complete(v) <==> Initialized(v) == v
  {
  }

  /** Initialising twice is the same as initialising once. */
  lemma InitializeIdempotent(v: Values)
    ensures Initialized(Initialized(v)) == Initialized(v)
  {
  }

  /** A new session is initialised to exactly the initial values. */
  lemma InitializeFresh()
    ensures Initialized(Unset) == InitialValues
  {
  }

  /** The state after a reset: every key at its initial value except the legacy `objetivos` list, which is kept. */
  function AfterReset(v: Values): Values {
    InitialValues.(objetivos := v.objetivos)
  }

  /** Initialising right after a reset changes nothing but a missing `objetivos` list. */
  lemma InitializeAfterReset(v: Values)
    ensures Initialized(AfterReset(v)) == (if v.objetivos.Some? then AfterReset(v) else InitialValues)
    ensures AfterReset(Initialized(v)) == InitialValues.(objetivos := Initialized(v).objetivos)
    ensures AfterReset(AfterReset(v)) == AfterReset(v)
  {
  }

  // ------------------------------------------------------- dynamic lists

  /** The lists edited through add and remove buttons. */
  datatype ListKey =
    | RegrasNegocio
    | ApisServicos
    | CriteriosAceitacao
    | SpikeAlternativas
    | SpikeCriteriosSucesso
    | KaizenMetricas
    | FixPassosReproduzir

  function ListOf(v: Values, k: ListKey): Option<seq<string>> {
    match k
    case RegrasNegocio => v.regrasNegocio
    case ApisServicos => v.apisServicos
    case CriteriosAceitacao => v.criteriosAceitacao
    case SpikeAlternativas => v.spikeAlternativas
    case SpikeCriteriosSucesso => v.spikeCriteriosSucesso
    case KaizenMetricas => v.kaizenMetricas
    case FixPassosReproduzir => v.fixPassosReproduzir
  }

  /** The state with list `k` replaced by `items`. */
  function WithList(v: Values, k: ListKey, items: seq<string>): Values {
    match k
    case RegrasNegocio => v.(regrasNegocio := Some(items))
    case ApisServicos => v.(apisServicos := Some(items))
    case CriteriosAceitacao => v.(criteriosAceitacao := Some(items))
    case SpikeAlternativas => v.(spikeAlternativas := Some(items))
    case SpikeCriteriosSucesso => v.(spikeCriteriosSucesso := Some(items))
    case KaizenMetricas => v.(kaizenMetricas := Some(items))
    case FixPassosReproduzir => v.(fixPassosReproduzir := Some(items))
  }

  /** The state with the dynamic lists left out, to say that everything else stays. */
  function WithoutLists(v: Values): Values {
    v.(regrasNegocio := None, apisServicos := None, criteriosAceitacao := None, spikeAlternativas := None,
       spikeCriteriosSucesso := None, kaizenMetricas := None, fixPassosReproduzir := None)
  }

  /** Replacing one list changes that list and nothing else. */
  lemma WithListFacts(v: Values, k: ListKey, items: seq<string>)
    ensures ListOf(WithList(v, k, items), k) == Some(items)
    ensures forall j :: j != k ==> ListOf(WithList(v, k, items), j) == ListOf(v, j)
    ensures WithoutLists(WithList(v, k, items)) == WithoutLists(v)
  {
  }

  /** Every dynamic list is present and has at least one item. */
  predicate ListsReady(v: Values) {
    forall k :: ListOf(v, k).Some? && ListOf(v, k).value != []
  }

  /** A reset leaves every dynamic list with exactly one empty item, whatever the state was. */
  lemma ResetReadiesLists(v: Values)
    ensures forall k :: ListOf(AfterReset(v), k) == Some([""])
    ensures ListsReady(AfterReset(v))
  {
    forall k ensures ListOf(AfterReset(v), k) == Some([""]) {
    }
  }

  /** Initialisation readies every list unless the state already held an empty one. */
  lemma InitializeReadiesLists(v: Values)
    requires forall k :: ListOf(v, k).Some? ==> ListOf(v, k).value != []
    ensures ListsReady(Initialized(v))
  {
    forall k ensures ListOf(Initialized(v), k).Some? && ListOf(Initialized(v), k).value != [] {
      assert ListOf(Initialized(v), k) == Keep(ListOf(v, k), Some([""]));
    }
  }

  /** The list after removing item `i`; removal is offered only while the list has more than one item. */
  function Removed(items: seq<string>, i: nat): seq<string>
    requires i < |items|
  {
    if |items| > 1 then items[..i] + items[i + 1..] else items
  }

  /** Removal never empties a list; when it happens it drops item `i` and keeps the rest in order. */
  lemma RemovedFacts(items: seq<string>, i: nat)
    requires i < |items|
    ensures Removed(items, i) != []
    ensures |items| > 1 ==> |Removed(items, i)| == |items| - 1
    ensures |items| > 1 ==> forall j :: 0 <= j < i ==> Removed(items, i)[j] == items[j]
    ensures |items| > 1 ==> forall j :: i <= j < |items| - 1 ==> Removed(items, i)[j] == items[j + 1]
    ensures |items| == 1 ==> Removed(items, i) == items
  {
  }

  // ------------------------------------------------------ business form

  /** A text of the session, stripped; an unset key reads as empty. */
  function Stripped(o: Option<string>): string {
    Strip(o.GetOr(""))
  }

  /** A submitted list: the stripped items whose stripped form is not empty, in order. */
  function Cleaned(o: Option<seq<string>>): seq<string> {
    StrippedNonBlank(o.GetOr([]))
  }

  /** The three objective texts, always under the same three keys. */
  function ObjectivesDict(v: Values): Field {
    Entries([("como", Stripped(v.objetivoComo)), ("quero", Stripped(v.objetivoQuero)),
      ("para_que", Stripped(v.objetivoParaQue))])
  }

  /** The `api_specs` record: method, endpoint and response format, then what the method calls for. */
  function ApiSpecs(v: Values): seq<(string, string)> {
    var m := v.apiMetodo.GetOr("GET");
    [("metodo", m), ("endpoint", Stripped(v.apiEndpoint)), ("formato_resposta", Stripped(v.apiFormatoResposta))]
      + ApiExtras(m, v)
  }

  /** The fields the method calls for, after the three common ones. */
  function ApiExtras(m: string, v: Values): seq<(string, string)> {
    if m == "GET" then [("query_params", Stripped(v.apiQueryParams))]
    else if m == "POST" then [("body", Stripped(v.apiBody))]
    else if m == "PUT" || m == "PATCH" then
      [("path_param", Stripped(v.apiPathParam)), ("body", Stripped(v.apiBody))]
    else if m == "DELETE" then [("path_param", Stripped(v.apiPathParam))]
    else []
  }

  function EntryKeys(entries: seq<(string, string)>): seq<string> {
    seq(|entries|, k requires 0 <= k < |entries| => entries[k].0)
  }

  /** The keys `api_specs` carries, method by method. */
  lemma ApiSpecsByMethod(v: Values)
    ensures var m := v.apiMetodo.GetOr("GET");
      var keys := EntryKeys(ApiSpecs(v));
      && keys[..3] == ["metodo", "endpoint", "formato_resposta"]
      && (m == "GET" ==> keys[3..] == ["query_params"])
      && (m == "POST" ==> keys[3..] == ["body"])
      && (m in {"PUT", "PATCH"} ==> keys[3..] == ["path_param", "body"])
      && (m == "DELETE" ==> keys[3..] == ["path_param"])
      && (m !in {"GET", "POST", "PUT", "PATCH", "DELETE"} ==> keys[3..] == [])
  {
    var s := ApiSpecs(v);
    var keys := EntryKeys(s);
    assert keys[..3] == ["metodo", "endpoint", "formato_resposta"];
  }

  /** Every value but the method's is stripped. */
  lemma ApiSpecsStripped(v: Values)
    ensures forall k :: 0 <= k < |ApiSpecs(v)| && ApiSpecs(v)[k].0 != "metodo" ==>
      Strip(ApiSpecs(v)[k].1) == ApiSpecs(v)[k].1
  {
    var m := v.apiMetodo.GetOr("GET");
    var s := ApiSpecs(v);
    var extras := ApiExtras(m, v);
    StrippedStable(v.apiEndpoint);
    StrippedStable(v.apiFormatoResposta);
    ApiExtrasStripped(m, v);
    forall k | 3 <= k < |s| ensures s[k] == extras[k - 3] && extras[k - 3] in extras {
    }
  }

  lemma ApiExtrasStripped(m: string, v: Values)
    ensures forall e :: e in ApiExtras(m, v) ==> Strip(e.1) == e.1
  {
    StrippedStable(v.apiQueryParams);
    StrippedStable(v.apiBody);
    StrippedStable(v.apiPathParam);
  }

  lemma StrippedStable(o: Option<string>)
    ensures Strip(Stripped(o)) == Stripped(o)
  {
    StripIdempotent(o.GetOr(""));
  }

  /** The record the business form submits once the form validates. */
  function BusinessFormData(v: Values): Form {
    var hasDependencies := v.hasDependencies.GetOr(false);
    var data := map[
      "value_area" := Str(v.valueArea.GetOr("Business")),
      "titulo" := Str(Stripped(v.titulo)),
      "regras_negocio" := Items(Cleaned(v.regrasNegocio)),
      "apis_servicos" := Items(Cleaned(v.apisServicos)),
      "objetivos" := ObjectivesDict(v),
      "complexidade" := Num(v.complexidade.GetOr(5)),
      "criterios_aceitacao" := Items(Cleaned(v.criteriosAceitacao)),
      "is_api" := Flag(v.isApi.GetOr(false)),
      "has_dependencies" := Flag(hasDependencies),
      "dependencies" := Str(if hasDependencies then Stripped(v.dependencies) else "")];
    if v.isApi.GetOr(false) then data["api_specs" := Entries(ApiSpecs(v))] else data
  }

  /** The keys every business record has. */
  const BusinessKeys: set<string> := {
    "value_area", "titulo", "regras_negocio", "apis_servicos", "objetivos", "complexidade",
    "criterios_aceitacao", "is_api", "has_dependencies", "dependencies" }

  /** The business record has its fixed keys, plus `api_specs` when the story is an API. */
  lemma BusinessFormKeys(v: Values)
    ensures BusinessFormData(v).Keys == BusinessKeys + (if v.isApi == Some(true) then {"api_specs"} else {})
  {
  }

  /** `api_specs` is present exactly when the story is an API. */
  lemma BusinessApiSpecs(v: Values)
    ensures "api_specs" in BusinessFormData(v) <==> v.isApi == Some(true)
  {
    assert "api_specs" !in BusinessKeys;
    BusinessFormKeys(v);
  }

  /** Dependencies are submitted empty unless the form declares some. */
  lemma BusinessDependencies(v: Values)
    ensures v.hasDependencies != Some(true) ==> BusinessFormData(v)["dependencies"] == Str("")
  {
  }

  /** Every form submits its objectives under the keys como, quero and para_que, with stripped texts. */
  lemma ObjectivesShape(v: Values)
    ensures ObjectivesDict(v).Entries?
    ensures EntryKeys(ObjectivesDict(v).entries) == ["como", "quero", "para_que"]
    ensures forall k :: 0 <= k < 3 ==> Strip(ObjectivesDict(v).entries[k].1) == ObjectivesDict(v).entries[k].1
  {
    StripIdempotent(v.objetivoComo.GetOr(""));
    StripIdempotent(v.objetivoQuero.GetOr(""));
    StripIdempotent(v.objetivoParaQue.GetOr(""));
    assert EntryKeys(ObjectivesDict(v).entries) == ["como", "quero", "para_que"];
  }

  // ------------------------------------------------ spike, kaizen and fix

  const TitleRequired := "Título é obrigatório"
  const QuestionRequired := "Pergunta/Hipótese é obrigatória"
  const ProcessRequired := "Processo/Área é obrigatório"
  const DescriptionRequired := "Descrição do bug é obrigatória"

  /** The spike record, or the message shown for the first missing required field. */
  function SpikeFormData(v: Values): Result<Form, string> {
    if Stripped(v.titulo) == [] then Err(TitleRequired)
    else if Stripped(v.spikePergunta) == [] then Err(QuestionRequired)
    else Ok(map[
      "value_area" := Str("Spike"),
      "titulo" := Str(Stripped(v.titulo)),
      "objetivos" := ObjectivesDict(v),
      "spike_pergunta" := Str(Stripped(v.spikePergunta)),
      "spike_alternativas" := Items(Cleaned(v.spikeAlternativas)),
      "spike_output" := Str(v.spikeOutput.GetOr("Documento de decisão")),
      "spike_criterios_sucesso" := Items(Cleaned(v.spikeCriteriosSucesso))])
  }

  /** The Spike form refuses a blank title first, then a blank question. */
  lemma SpikeRequired(v: Values)
    ensures SpikeFormData(v).Err? <==> AllSpace(v.titulo.GetOr("")) || AllSpace(v.spikePergunta.GetOr(""))
    ensures AllSpace(v.titulo.GetOr("")) ==> SpikeFormData(v) == Err(TitleRequired)
  {
    StripEmptyIffAllSpace(v.titulo.GetOr(""));
    StripEmptyIffAllSpace(v.spikePergunta.GetOr(""));
  }

  /** A Spike form that passes submits its own category. */
  lemma SpikeSubmits(v: Values)
    ensures SpikeFormData(v).Ok? ==> SpikeFormData(v).value["value_area"] == Str("Spike")
  {
  }

  /** A Spike form that passes submits the stripped title. */
  lemma SpikeCarries(v: Values)
    ensures SpikeFormData(v).Ok? ==> SpikeFormData(v).value["titulo"] == Str(Strip(v.titulo.GetOr("")))
  {
  }


  function KaizenFormData(v: Values): Result<Form, string> {
    if Stripped(v.titulo) == [] then Err(TitleRequired)
    else if Stripped(v.kaizenProcesso) == [] then Err(ProcessRequired)
    else Ok(map[
      "value_area" := Str("Kaizen"),
      "titulo" := Str(Stripped(v.titulo)),
      "objetivos" := ObjectivesDict(v),
      "kaizen_processo" := Str(Stripped(v.kaizenProcesso)),
      "kaizen_situacao_atual" := Str(Stripped(v.kaizenSituacaoAtual)),
      "kaizen_meta" := Str(Stripped(v.kaizenMeta)),
      "kaizen_metricas" := Items(Cleaned(v.kaizenMetricas)),
      "kaizen_impacto" := Str(Stripped(v.kaizenImpacto)),
      "complexidade" := Num(v.complexidade.GetOr(5))])
  }

  /** The Kaizen form refuses a blank title first, then a blank process. */
  lemma KaizenRequired(v: Values)
    ensures KaizenFormData(v).Err? <==> AllSpace(v.titulo.GetOr("")) || AllSpace(v.kaizenProcesso.GetOr(""))
    ensures AllSpace(v.titulo.GetOr("")) ==> KaizenFormData(v) == Err(TitleRequired)
  {
    StripEmptyIffAllSpace(v.titulo.GetOr(""));
    StripEmptyIffAllSpace(v.kaizenProcesso.GetOr(""));
  }

  /** A Kaizen form that passes submits its own category. */
  lemma KaizenSubmits(v: Values)
    ensures KaizenFormData(v).Ok? ==> KaizenFormData(v).value["value_area"] == Str("Kaizen")
  {
  }

  /** A Kaizen form that passes submits the stripped title. */
  lemma KaizenCarries(v: Values)
    ensures KaizenFormData(v).Ok? ==> KaizenFormData(v).value["titulo"] == Str(Strip(v.titulo.GetOr("")))
  {
  }


  /** An uploaded file: its name, its declared type (empty when unknown) and its base64 text, absent when reading it failed. */
  datatype Upload = Upload(name: string, fileType: string, encoded: Option<string>)

  function ImageOf(u: Upload): Image
    requires u.encoded.Some?
  {
    Image(Some(u.name), Some(if u.fileType != [] then u.fileType else DefaultMime), Some(u.encoded.value))
  }

  /** The uploads that converted, in order. */
  function Converted(uploads: seq<Upload>): seq<Image> {
    if uploads == [] then []
    else
      var last := uploads[|uploads| - 1];
      Converted(uploads[..|uploads| - 1]) + (if last.encoded.Some? then [ImageOf(last)] else [])
  }

  /** Conversion distributes over concatenation, so the kept images keep the uploads' order. */
  lemma {:induction false} ConvertedAppend(a: seq<Upload>, b: seq<Upload>)
    ensures Converted(a + b) == Converted(a) + Converted(b)
    decreases |b|
  {
    if b == [] {
      assert a + b == a;
    } else {
      var init := b[..|b| - 1];
      assert (a + b)[..|a + b| - 1] == a + init;
      assert (a + b)[|a + b| - 1] == b[|b| - 1];
      ConvertedAppend(a, init);
    }
  }

  /** An image is submitted exactly when some upload converted to it; every one has a type and data. */
  lemma {:induction false} ConvertedMembership(uploads: seq<Upload>, img: Image)
    ensures img in Converted(uploads) <==>
      exists k :: 0 <= k < |uploads| && uploads[k].encoded.Some? && ImageOf(uploads[k]) == img
    ensures img in Converted(uploads) ==> img.mime.Some? && img.mime.value != [] && img.data.Some?
  {
    if uploads != [] {
      var init := uploads[..|uploads| - 1];
      var last := uploads[|uploads| - 1];
      ConvertedMembership(init, img);
      if exists k :: 0 <= k < |init| && init[k].encoded.Some? && ImageOf(init[k]) == img {
        var k :| 0 <= k < |init| && init[k].encoded.Some? && ImageOf(init[k]) == img;
        assert uploads[k] == init[k];
      }
      if exists k :: 0 <= k < |uploads| && uploads[k].encoded.Some? && ImageOf(uploads[k]) == img {
        var k :| 0 <= k < |uploads| && uploads[k].encoded.Some? && ImageOf(uploads[k]) == img;
        if k < |init| {
          assert init[k] == uploads[k];
        }
      }
    }
  }

  /** The fix record; the uploads are converted only once the required fields are given. */
  function FixFormData(v: Values, images: seq<Image>): Result<Form, string> {
    if Stripped(v.titulo) == [] then Err(TitleRequired)
    else if Stripped(v.fixDescricao) == [] then Err(DescriptionRequired)
    else Ok(map[
      "value_area" := Str("Fix/Bug/Incidente"),
      "titulo" := Str(Stripped(v.titulo)),
      "objetivos" := ObjectivesDict(v),
      "fix_descricao" := Str(Stripped(v.fixDescricao)),
      "fix_passos_reproduzir" := Items(Cleaned(v.fixPassosReproduzir)),
      "fix_comportamento_esperado" := Str(Stripped(v.fixComportamentoEsperado)),
      "fix_comportamento_atual" := Str(Stripped(v.fixComportamentoAtual)),
      "fix_ambiente" := Str(v.fixAmbiente.GetOr("Produção")),
      "fix_severidade" := Str(v.fixSeveridade.GetOr("Média")),
      "fix_logs" := Str(Stripped(v.fixLogs)),
      "fix_images" := Pictures(images),
      "complexidade" := Num(v.complexidade.GetOr(5))])
  }

  /** The Fix form refuses a blank title first, then a blank description. */
  lemma FixRequired(v: Values, images: seq<Image>)
    ensures FixFormData(v, images).Err? <==> AllSpace(v.titulo.GetOr("")) || AllSpace(v.fixDescricao.GetOr(""))
    ensures AllSpace(v.titulo.GetOr("")) ==> FixFormData(v, images) == Err(TitleRequired)
  {
    StripEmptyIffAllSpace(v.titulo.GetOr(""));
    StripEmptyIffAllSpace(v.fixDescricao.GetOr(""));
  }

  /** A Fix form that passes submits its own category. */
  lemma FixSubmits(v: Values, images: seq<Image>)
    ensures FixFormData(v, images).Ok? ==> FixFormData(v, images).value["value_area"] == Str("Fix/Bug/Incidente")
  {
  }

  /** A Fix form that passes submits the converted images. */
  lemma FixCarries(v: Values, images: seq<Image>)
    ensures FixFormData(v, images).Ok? ==> FixFormData(v, images).value["fix_images"] == Pictures(images)
  {
  }


  // ----------------------------------------------------------- the session

  class FormSession {
    var values: Values

    /** A new session has no key set. */
    constructor ()
      ensures values == Unset
    {
      values := Unset;
    }

    /** Assigns the initial value of every key that is not set yet and keeps every key that is. */
    method Initialize()
      modifies this
      ensures values == Initialized(old(values))
    {
      values := values.(valueArea := Keep(values.valueArea, Some("Business")));
      values := values.(titulo := Keep(values.titulo, Some("")));
      values := values.(regrasNegocio := Keep(values.regrasNegocio, Some([""])));
      values := values.(apisServicos := Keep(values.apisServicos, Some([""])));
      values := values.(objetivos := Keep(values.objetivos, Some([""])));
      values := values.(complexidade := Keep(values.complexidade, Some(5)));
      values := values.(criteriosAceitacao := Keep(values.criteriosAceitacao, Some([""])));
      values := values.(validationErrors := Keep(values.validationErrors, Some([])));
      values := values.(isApi := Keep(values.isApi, Some(false)));
      values := values.(apiMetodo := Keep(values.apiMetodo, Some("GET")));
      values := values.(apiEndpoint := Keep(values.apiEndpoint, Some("")));
      values := values.(apiQueryParams := Keep(values.apiQueryParams, Some("")));
      values := values.(apiPathParam := Keep(values.apiPathParam, Some("")));
      values := values.(apiBody := Keep(values.apiBody, Some("")));
      values := values.(apiFormatoResposta := Keep(values.apiFormatoResposta, Some("")));
      values := values.(objetivoComo := Keep(values.objetivoComo, Some("")));
      values := values.(objetivoQuero := Keep(values.objetivoQuero, Some("")));
      values := values.(objetivoParaQue := Keep(values.objetivoParaQue, Some("")));
      values := values.(hasDependencies := Keep(values.hasDependencies, Some(false)));
      values := values.(dependencies := Keep(values.dependencies, Some("")));
      values := values.(spikePergunta := Keep(values.spikePergunta, Some("")));
      values := values.(spikeAlternativas := Keep(values.spikeAlternativas, Some([""])));
      values := values.(spikeTimebox := Keep(values.spikeTimebox, Some(8)));
      values := values.(spikeOutput := Keep(values.spikeOutput, Some("Documento de decisão")));
      values := values.(spikeCriteriosSucesso := Keep(values.spikeCriteriosSucesso, Some([""])));
      values := values.(kaizenProcesso := Keep(values.kaizenProcesso, Some("")));
      values := values.(kaizenSituacaoAtual := Keep(values.kaizenSituacaoAtual, Some("")));
      values := values.(kaizenMeta := Keep(values.kaizenMeta, Some("")));
      values := values.(kaizenMetricas := Keep(values.kaizenMetricas, Some([""])));
      values := values.(kaizenImpacto := Keep(values.kaizenImpacto, Some("")));
      values := values.(fixDescricao := Keep(values.fixDescricao, Some("")));
      values := values.(fixPassosReproduzir := Keep(values.fixPassosReproduzir, Some([""])));
      values := values.(fixComportamentoEsperado := Keep(values.fixComportamentoEsperado, Some("")));
      values := values.(fixComportamentoAtual := Keep(values.fixComportamentoAtual, Some("")));
      values := values.(fixAmbiente := Keep(values.fixAmbiente, Some("Produção")));
      values := values.(fixSeveridade := Keep(values.fixSeveridade, Some("Média")));
      values := values.(fixLogs := Keep(values.fixLogs, Some("")));
    }

    /** Puts the form back to its initial values, except the legacy `objetivos` list. */
    method Reset()
      modifies this
      ensures values == AfterReset(old(values))
      ensures ListsReady(values)
    {
      values := values.(valueArea := Some("Business"));
      values := values.(titulo := Some(""));
      values := values.(regrasNegocio := Some([""]));
      values := values.(apisServicos := Some([""]));
      values := values.(complexidade := Some(5));
      values := values.(criteriosAceitacao := Some([""]));
      values := values.(validationErrors := Some([]));
      values := values.(objetivoComo := Some(""));
      values := values.(objetivoQuero := Some(""));
      values := values.(objetivoParaQue := Some(""));
      values := values.(isApi := Some(false));
      values := values.(apiMetodo := Some("GET"));
      values := values.(apiEndpoint := Some(""));
      values := values.(apiQueryParams := Some(""));
      values := values.(apiPathParam := Some(""));
      values := values.(apiBody := Some(""));
      values := values.(apiFormatoResposta := Some(""));
      values := values.(hasDependencies := Some(false));
      values := values.(dependencies := Some(""));
      values := values.(spikePergunta := Some(""));
      values := values.(spikeAlternativas := Some([""]));
      values := values.(spikeTimebox := Some(8));
      values := values.(spikeOutput := Some("Documento de decisão"));
      values := values.(spikeCriteriosSucesso := Some([""]));
      values := values.(kaizenProcesso := Some(""));
      values := values.(kaizenSituacaoAtual := Some(""));
      values := values.(kaizenMeta := Some(""));
      values := values.(kaizenMetricas := Some([""]));
      values := values.(kaizenImpacto := Some(""));
      values := values.(fixDescricao := Some(""));
      values := values.(fixPassosReproduzir := Some([""]));
      values := values.(fixComportamentoEsperado := Some(""));
      values := values.(fixComportamentoAtual := Some(""));
      values := values.(fixAmbiente := Some("Produção"));
      values := values.(fixSeveridade := Some("Média"));
      values := values.(fixLogs := Some(""));
      ResetReadiesLists(old(values));
    }

    /** Appends one empty item to a dynamic list. */
    method AddItem(k: ListKey)
      requires ListOf(values, k).Some?
      modifies this
      ensures values == WithList(old(values), k, ListOf(old(values), k).value + [""])
      ensures ListsReady(old(values)) ==> ListsReady(values)
    {
      values := WithList(values, k, ListOf(values, k).value + [""]);
      WithListFacts(old(values), k, ListOf(old(values), k).value + [""]);
    }

    /** Writes the text area's current text back into item `i`. */
    method SetItem(k: ListKey, i: nat, text: string)
      requires ListOf(values, k).Some? && i < |ListOf(values, k).value|
      modifies this
      ensures values == WithList(old(values), k, ListOf(old(values), k).value[i := text])
      ensures ListsReady(old(values)) ==> ListsReady(values)
    {
      values := WithList(values, k, ListOf(values, k).value[i := text]);
      WithListFacts(old(values), k, ListOf(old(values), k).value[i := text]);
    }

    /** Removes item `i` when the list has more than one item, the only case in which the page offers removal. */
    method RemoveItem(k: ListKey, i: nat)
      requires ListOf(values, k).Some? && i < |ListOf(values, k).value|
      modifies this
      ensures values == WithList(old(values), k, Removed(ListOf(old(values), k).value, i))
      ensures ListsReady(old(values)) ==> ListsReady(values)
    {
      var items := ListOf(values, k).value;
      var kept := items;
      if |items| > 1 {
        kept := items[..i] + items[i + 1..];
      }
      values := WithList(values, k, kept);
      RemovedFacts(items, i);
      WithListFacts(old(values), k, kept);
    }

    /**
     * Submitting the business form: `valid` and `errors` are the result of the
     * form's validator. A rejected form records the errors and submits nothing;
     * an accepted one clears them and submits the record.
     */
    method SubmitBusiness(valid: bool, errors: seq<string>) returns (r: Option<Form>)
      modifies this
      ensures !valid ==> r == None && values == old(values).(validationErrors := Some(errors))
      ensures valid ==> r == Some(BusinessFormData(old(values)))
      ensures valid ==> values == old(values).(validationErrors := Some([]))
    {
      var before := values;
      if !valid {
        values := values.(validationErrors := Some(errors));
        return None;
      }
      values := values.(validationErrors := Some([]));
      r := Some(BusinessFormData(before));
    }

    /** Submitting the fix form: the uploads are converted one by one, skipping those that fail. */
    method SubmitFix(uploads: seq<Upload>) returns (r: Result<Form, string>)
      ensures r == FixFormData(values, Converted(uploads))
    {
      if Stripped(values.titulo) == [] {
        return Err(TitleRequired);
      }
      if Stripped(values.fixDescricao) == [] {
        return Err(DescriptionRequired);
      }
      var images := ConvertUploads(uploads);
      r := FixFormData(values, images);
    }
  }

  method ConvertUploads(uploads: seq<Upload>) returns (images: seq<Image>)
    ensures images == Converted(uploads)
  {
    images := [];
    var i := 0;
    while i < |uploads|
      invariant 0 <= i <= |uploads|
      invariant images == Converted(uploads[..i])
    {
      var u := uploads[i];
      if u.encoded.Some? {
        var fileType := if u.fileType != [] then u.fileType else DefaultMime;
        images := images + [Image(Some(u.name), Some(fileType), Some(u.encoded.value))];
      }
      assert uploads[..i + 1][..i] == uploads[..i];
      i := i + 1;
    }
    assert uploads[..i] == uploads;
  }
}
