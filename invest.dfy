// The local INVEST scorer: threshold heuristics over the dictionary form of a
// story, the strength/weakness classification and the capped suggestion list.

module Invest {
  import opened Base
  import opened Text
  import opened Stories

  // ------------------------------------------------------------ reading

  /** `story.get(key, default)` for a text field. */
  function TextField(d: StoryDict, key: string, default: string): string {
    if key in d && d[key].VStr? then d[key].str else default
  }

  /** `story.get(key, default)` for an integer field. */
  function IntField(d: StoryDict, key: string, default: int): int {
    if key in d && d[key].VInt? then d[key].num else default
  }

  /** `story.get(key, [])` for a list of texts. */
  function ListField(d: StoryDict, key: string): seq<string> {
    if key in d && d[key].VList? then d[key].items else []
  }

  /** `len(story.get(key, []))` for a dictionary or a list. */
  function EntryCount(d: StoryDict, key: string): nat {
    if key in d && d[key].VDict? then |d[key].entries|
    else if key in d && d[key].VList? then |d[key].items|
    else 0
  }

  /** The generated document, lower-cased, as the heuristics search it. */
  function Body(d: StoryDict): string {
    Lower(TextField(d, "historia_gerada", ""))
  }

  function Complexity(d: StoryDict): int {
    IntField(d, "complexidade", 0)
  }

  // ---------------------------------------------------------- sub-scores

  const DependencyKeywords: seq<string> :=
    ["depende de", "após", "depois de", "requer que", "necessita da", "bloqueada por", "aguardar"]

  /** The summed non-overlapping counts of every keyword. */
  function KeywordCount(text: string, keywords: seq<string>): nat
    requires forall k :: 0 <= k < |keywords| ==> keywords[k] != []
  {
    if keywords == [] then 0 else Count(text, keywords[0]) + KeywordCount(text, keywords[1..])
  }

  /** The sum is zero exactly when no keyword occurs at all. */
  lemma {:induction false} KeywordCountZero(text: string, keywords: seq<string>)
    requires forall k :: 0 <= k < |keywords| ==> keywords[k] != []
    ensures KeywordCount(text, keywords) == 0 <==> forall k :: 0 <= k < |keywords| ==> !Contains(text, keywords[k])
  {
    if keywords != [] {
      KeywordCountZero(text, keywords[1..]);
      CountZeroIffAbsent(text, keywords[0]);
      if forall k :: 0 <= k < |keywords[1..]| ==> !Contains(text, keywords[1..][k]) {
        forall k | 1 <= k < |keywords| ensures !Contains(text, keywords[k]) {
          assert keywords[k] == keywords[1..][k - 1];
        }
      }
    }
  }

  function DependencyCount(d: StoryDict): nat {
    KeywordCount(Body(d), DependencyKeywords)
  }

  /** Independence: 100 with no dependency keyword, 70 with one mention, 40 with more. */
  function CheckIndependent(d: StoryDict): (r: int)
    ensures r == 100 <==> forall k :: 0 <= k < |DependencyKeywords| ==> !Contains(Body(d), DependencyKeywords[k])
    ensures r == 70 <==> DependencyCount(d) == 1
    ensures r == 40 <==> DependencyCount(d) >= 2
  {
    KeywordCountZero(Body(d), DependencyKeywords);
    var n := DependencyCount(d);
    if n == 0 then 100 else if n == 1 then 70 else 40
  }

  /** Value: 30 without objectives, 90 with two or more entries, 70 with one; values are not inspected. */
  function CheckValuable(d: StoryDict): (r: int)
    ensures r == 30 <==> EntryCount(d, "objetivos") == 0
    ensures r == 90 <==> EntryCount(d, "objetivos") >= 2
    ensures r == 70 <==> EntryCount(d, "objetivos") == 1
  {
    var n := EntryCount(d, "objetivos");
    if n == 0 then 30 else if n >= 2 then 90 else 70
  }

  /** Estimability: 100 for a positive complexity, 20 otherwise, a missing one counting as 0. */
  function CheckEstimable(d: StoryDict): (r: int)
    ensures r == 100 <==> Complexity(d) > 0
    ensures r == 20 <==> Complexity(d) <= 0
    ensures "complexidade" !in d ==> r == 20
  {
    if Complexity(d) > 0 then 100 else 20
  }

  /** Size: 50 when undefined (0), then 100, 90, 70 and 30 as the complexity passes 5, 8 and 13. */
  function CheckSmall(d: StoryDict): (r: int)
    ensures r == 50 <==> Complexity(d) == 0
    ensures r == 100 <==> Complexity(d) != 0 && Complexity(d) <= 5
    ensures r == 90 <==> 6 <= Complexity(d) <= 8
    ensures r == 70 <==> 9 <= Complexity(d) <= 13
    ensures r == 30 <==> Complexity(d) > 13
  {
    var c := Complexity(d);
    if c == 0 then 50
    else if c <= 5 then 100
    else if c <= 8 then 90
    else if c <= 13 then 70
    else 30
  }

  /** Testability: 10, 50, 70 and 100 for zero, one, two and three or more criteria. */
  function CheckTestable(d: StoryDict): (r: int)
    ensures r == 10 <==> |ListField(d, "criterios_aceitacao")| == 0
    ensures r == 50 <==> |ListField(d, "criterios_aceitacao")| == 1
    ensures r == 70 <==> |ListField(d, "criterios_aceitacao")| == 2
    ensures r == 100 <==> |ListField(d, "criterios_aceitacao")| >= 3
  {
    var n := |ListField(d, "criterios_aceitacao")|;
    if n == 0 then 10 else if n >= 3 then 100 else if n == 2 then 70 else 50
  }

  const NegotiableScore := 70

  // ------------------------------------------------------- justifications

  const IndependentHigh := "História não menciona dependências explícitas de outras histórias"
  const IndependentMid := "História menciona algumas dependências, mas pode ser desenvolvida independentemente"
  const IndependentLow := "História possui múltiplas dependências que podem bloquear desenvolvimento"
  const NegotiableNote := "Avaliação completa requer análise com IA"
  const ValuableHigh := "Objetivos técnicos e de negócio estão claramente definidos"
  const ValuableMid := "Valor está presente mas poderia ser mais explícito"
  const ValuableLow := "Valor de negócio/técnico não está claro"
  const EstimableHigh := "Complexidade foi estimada, tornando história estimável"
  const EstimableLow := "Falta estimativa de complexidade"
  const TestableHigh := "Critérios de aceitação estão bem definidos e são testáveis"
  const TestableMid := "Possui alguns critérios, mas poderia ter mais para cobrir edge cases"
  const TestableLow := "Faltam critérios de aceitação claros e testáveis"

  function JustifyIndependent(score: int): string {
    if score >= 80 then IndependentHigh else if score >= 50 then IndependentMid else IndependentLow
  }

  function JustifyValuable(score: int): string {
    if score >= 80 then ValuableHigh else if score >= 50 then ValuableMid else ValuableLow
  }

  function JustifyEstimable(score: int): string {
    if score >= 80 then EstimableHigh else EstimableLow
  }

  function SmallHigh(c: int): string {
    "Complexidade de " + IntToString(c) + " pontos é adequada para uma sprint"
  }

  function SmallMid(c: int): string {
    "Complexidade de " + IntToString(c) + " pontos está no limite, considere quebrar"
  }

  function SmallLow(c: int): string {
    "Complexidade de " + IntToString(c) + " pontos é muito alta, história deve ser quebrada"
  }

  function JustifySmall(score: int, c: int): string {
    if score >= 90 then SmallHigh(c) else if score >= 70 then SmallMid(c) else SmallLow(c)
  }

  function JustifyTestable(score: int): string {
    if score >= 80 then TestableHigh else if score >= 50 then TestableMid else TestableLow
  }

  // --------------------------------------------------------------- score

  /** The fields of the score record the local scorer assigns. */
  datatype InvestScore = InvestScore(
    independent: int,
    negotiable: int,
    valuable: int,
    estimable: int,
    small: int,
    testable: int,
    justifications: map<string, string>,
    strengths: seq<string>,
    weaknesses: seq<string>,
    suggestions: seq<string>)

  datatype Dimension = Independent | Negotiable | Valuable | Estimable | Small | Testable

  /** The fixed order in which dimensions are reported. */
  const Dimensions: seq<Dimension> := [Independent, Negotiable, Valuable, Estimable, Small, Testable]

  function Rank(dim: Dimension): nat {
    match dim
    case Independent => 0
    case Negotiable => 1
    case Valuable => 2
    case Estimable => 3
    case Small => 4
    case Testable => 5
  }

  function Label(dim: Dimension): string {
    match dim
    case Independent => "Independência"
    case Negotiable => "Negociabilidade"
    case Valuable => "Valor"
    case Estimable => "Estimabilidade"
    case Small => "Tamanho"
    case Testable => "Testabilidade"
  }

  function ScoreOf(sc: InvestScore, dim: Dimension): int {
    match dim
    case Independent => sc.independent
    case Negotiable => sc.negotiable
    case Valuable => sc.valuable
    case Estimable => sc.estimable
    case Small => sc.small
    case Testable => sc.testable
  }

  /** The report line `"{label}: {value}%"`. */
  function Entry(dim: Dimension, v: int): string {
    Label(dim) + ": " + IntToString(v) + "%"
  }

  /** The dimension a report line names, read from its first two characters (-1 for none). */
  function EntryRank(x: string): int {
    if |x| < 2 then -1
    else if x[..2] == "In" then 0
    else if x[..2] == "Ne" then 1
    else if x[..2] == "Va" then 2
    else if x[..2] == "Es" then 3
    else if x[..2] == "Ta" then 4
    else if x[..2] == "Te" then 5
    else -1
  }

  lemma EntryRankOf(dim: Dimension, v: int)
    ensures EntryRank(Entry(dim, v)) == Rank(dim)
  {
    var e := Entry(dim, v);
    var l := Label(dim);
    assert e[0] == l[0] && e[1] == l[1];
    assert e[..2] == [l[0], l[1]];
  }

  /** A report line determines its dimension. */
  lemma EntryNamesDimension(d1: Dimension, v1: int, d2: Dimension, v2: int)
    requires Entry(d1, v1) == Entry(d2, v2)
    ensures d1 == d2
  {
    EntryRankOf(d1, v1);
    EntryRankOf(d2, v2);
  }

  /** A strength scores at least 80; a weakness below 50. */
  predicate Qualifies(v: int, strong: bool) {
    if strong then v >= 80 else v < 50
  }

  /** The dimensions of `dims` that qualify, in the order of `dims`. */
  function QualifyingDims(sc: InvestScore, dims: seq<Dimension>, strong: bool): seq<Dimension>
    decreases |dims|
  {
    if dims == [] then []
    else
      var last := dims[|dims| - 1];
      QualifyingDims(sc, dims[..|dims| - 1], strong) + (if Qualifies(ScoreOf(sc, last), strong) then [last] else [])
  }

  /** The report lines of the dimensions in `dims` that qualify, in the order of `dims`. */
  function Classified(sc: InvestScore, dims: seq<Dimension>, strong: bool): seq<string>
    decreases |dims|
  {
    if dims == [] then []
    else
      var last := dims[|dims| - 1];
      Classified(sc, dims[..|dims| - 1], strong)
        + (if Qualifies(ScoreOf(sc, last), strong) then [Entry(last, ScoreOf(sc, last))] else [])
  }

  /** Each report line is the line of the qualifying dimension at the same position. */
  lemma {:induction false} ClassifiedLines(sc: InvestScore, dims: seq<Dimension>, strong: bool)
    ensures |Classified(sc, dims, strong)| == |QualifyingDims(sc, dims, strong)|
    ensures forall i :: 0 <= i < |Classified(sc, dims, strong)| ==>
      Classified(sc, dims, strong)[i] == Entry(QualifyingDims(sc, dims, strong)[i], ScoreOf(sc, QualifyingDims(sc, dims, strong)[i]))
    decreases |dims|
  {
    if dims != [] {
      ClassifiedLines(sc, dims[..|dims| - 1], strong);
    }
  }

  lemma {:induction false} QualifyingMembership(sc: InvestScore, dims: seq<Dimension>, strong: bool, dim: Dimension)
    ensures dim in QualifyingDims(sc, dims, strong) <==> dim in dims && Qualifies(ScoreOf(sc, dim), strong)
    decreases |dims|
  {
    if dims != [] {
      var init := dims[..|dims| - 1];
      QualifyingMembership(sc, init, strong, dim);
      assert dims == init + [dims[|dims| - 1]];
    }
  }

  predicate RanksIncrease(dims: seq<Dimension>) {
    forall i, j :: 0 <= i < j < |dims| ==> Rank(dims[i]) < Rank(dims[j])
  }

  lemma {:induction false} QualifyingInOrder(sc: InvestScore, dims: seq<Dimension>, strong: bool)
    requires RanksIncrease(dims)
    ensures RanksIncrease(QualifyingDims(sc, dims, strong))
    decreases |dims|
  {
    if dims != [] {
      var init := dims[..|dims| - 1];
      var last := dims[|dims| - 1];
      QualifyingInOrder(sc, init, strong);
      var q0 := QualifyingDims(sc, init, strong);
      forall x | x in q0 ensures Rank(x) < Rank(last) {
        QualifyingMembership(sc, init, strong, x);
        var k :| 0 <= k < |init| && init[k] == x;
        assert dims[k] == x;
      }
      var q := QualifyingDims(sc, dims, strong);
      assert forall i :: 0 <= i < |q0| ==> q[i] == q0[i] && q0[i] in q0;
    }
  }

  /** Every dimension lands in at most one of the two lists. */
  lemma {:induction false} QualifyingSplit(sc: InvestScore, dims: seq<Dimension>)
    ensures |QualifyingDims(sc, dims, true)| + |QualifyingDims(sc, dims, false)| <= |dims|
    decreases |dims|
  {
    if dims != [] {
      QualifyingSplit(sc, dims[..|dims| - 1]);
    }
  }

  function Strengths(sc: InvestScore): seq<string> {
    Classified(sc, Dimensions, true)
  }

  function Weaknesses(sc: InvestScore): seq<string> {
    Classified(sc, Dimensions, false)
  }

  /** A line naming `dim` is in a classified list exactly when `dim` qualifies. */
  lemma ClassifiedHas(sc: InvestScore, strong: bool, dim: Dimension)
    ensures Entry(dim, ScoreOf(sc, dim)) in Classified(sc, Dimensions, strong) <==> Qualifies(ScoreOf(sc, dim), strong)
  {
    var q := QualifyingDims(sc, Dimensions, strong);
    var c := Classified(sc, Dimensions, strong);
    ClassifiedLines(sc, Dimensions, strong);
    QualifyingMembership(sc, Dimensions, strong, dim);
    assert Dimensions[Rank(dim)] == dim;
    if Qualifies(ScoreOf(sc, dim), strong) {
      var i :| 0 <= i < |q| && q[i] == dim;
      assert c[i] == Entry(dim, ScoreOf(sc, dim));
    }
    if Entry(dim, ScoreOf(sc, dim)) in c {
      var i :| 0 <= i < |c| && c[i] == Entry(dim, ScoreOf(sc, dim));
      EntryNamesDimension(dim, ScoreOf(sc, dim), q[i], ScoreOf(sc, q[i]));
      QualifyingMembership(sc, Dimensions, strong, q[i]);
    }
  }

  /** The dimension order, read back from a classified list. */
  lemma ClassifiedInOrder(sc: InvestScore, strong: bool)
    ensures var c := Classified(sc, Dimensions, strong);
      forall i, j :: 0 <= i < j < |c| ==> EntryRank(c[i]) < EntryRank(c[j])
  {
    var q := QualifyingDims(sc, Dimensions, strong);
    var c := Classified(sc, Dimensions, strong);
    ClassifiedLines(sc, Dimensions, strong);
    QualifyingInOrder(sc, Dimensions, strong);
    forall i | 0 <= i < |c| ensures EntryRank(c[i]) == Rank(q[i]) {
      EntryRankOf(q[i], ScoreOf(sc, q[i]));
    }
  }

  /**
   * Each dimension is a strength exactly when it scores at least 80 and a
   * weakness exactly when it scores below 50; no line is both, and each list
   * follows the dimension order.
   */
  lemma StrengthsWeaknessesFacts(sc: InvestScore)
    ensures forall dim :: Entry(dim, ScoreOf(sc, dim)) in Strengths(sc) <==> ScoreOf(sc, dim) >= 80
    ensures forall dim :: Entry(dim, ScoreOf(sc, dim)) in Weaknesses(sc) <==> ScoreOf(sc, dim) < 50
    ensures forall x :: !(x in Strengths(sc) && x in Weaknesses(sc))
    ensures forall i, j :: 0 <= i < j < |Strengths(sc)| ==> EntryRank(Strengths(sc)[i]) < EntryRank(Strengths(sc)[j])
    ensures forall i, j :: 0 <= i < j < |Weaknesses(sc)| ==> EntryRank(Weaknesses(sc)[i]) < EntryRank(Weaknesses(sc)[j])
    ensures |Strengths(sc)| + |Weaknesses(sc)| <= 6
  {
    forall dim ensures Entry(dim, ScoreOf(sc, dim)) in Strengths(sc) <==> ScoreOf(sc, dim) >= 80 {
      ClassifiedHas(sc, true, dim);
    }
    forall dim ensures Entry(dim, ScoreOf(sc, dim)) in Weaknesses(sc) <==> ScoreOf(sc, dim) < 50 {
      ClassifiedHas(sc, false, dim);
    }
    ClassifiedLines(sc, Dimensions, true);
    ClassifiedLines(sc, Dimensions, false);
    forall x | x in Strengths(sc) && x in Weaknesses(sc) ensures false {
    }
    ClassifiedInOrder(sc, true);
    ClassifiedInOrder(sc, false);
    QualifyingSplit(sc, Dimensions);
  }

  /** The loop over the dimensions that fills both lists. */
  method GenerateStrengthsWeaknesses(sc: InvestScore) returns (strengths: seq<string>, weaknesses: seq<string>)
    ensures strengths == Strengths(sc)
    ensures weaknesses == Weaknesses(sc)
  {
    strengths := [];
    weaknesses := [];
    var i := 0;
    while i < |Dimensions|
      invariant 0 <= i <= |Dimensions|
      invariant strengths == Classified(sc, Dimensions[..i], true)
      invariant weaknesses == Classified(sc, Dimensions[..i], false)
    {
      var dim := Dimensions[i];
      var value := ScoreOf(sc, dim);
      assert Dimensions[..i + 1][..i] == Dimensions[..i];
      if value >= 80 {
        strengths := strengths + [Entry(dim, value)];
      } else if value < 50 {
        weaknesses := weaknesses + [Entry(dim, value)];
      }
      i := i + 1;
    }
    assert Dimensions[..i] == Dimensions;
  }

  // --------------------------------------------------------- suggestions

  /** The suggestion rules, in the order they are tried. */
  datatype Rule = SizeRule | CriteriaRule | ValueRule | DependencyRule | SearchRule | FormRule

  const Rules: seq<Rule> := [SizeRule, CriteriaRule, ValueRule, DependencyRule, SearchRule, FormRule]

  const MaxSuggestions := 5

  function RuleRank(r: Rule): nat {
    match r
    case SizeRule => 0
    case CriteriaRule => 1
    case ValueRule => 2
    case DependencyRule => 3
    case SearchRule => 4
    case FormRule => 5
  }

  /** When a rule contributes a suggestion. */
  predicate Fires(d: StoryDict, sc: InvestScore, r: Rule) {
    match r
    case SizeRule => sc.small < 70
    case CriteriaRule => sc.testable < 80
    case ValueRule => sc.valuable < 80
    case DependencyRule => sc.independent < 80 && Mentions(Body(d), "depende", "após")
    case SearchRule => Mentions(Body(d), "pesquisa", "busca")
    case FormRule => Mentions(Body(d), "cadastro", "formulario")
  }

  /** `a in text or b in text`. */
  predicate Mentions(text: string, a: string, b: string) {
    Contains(text, a) || Contains(text, b)
  }

  function Title(d: StoryDict): string {
    TextField(d, "titulo", "a história")
  }

  /** The text a rule contributes. */
  function Advice(d: StoryDict, r: Rule): string {
    var titulo := Title(d);
    var apis := ListField(d, "apis_servicos");
    var regras := ListField(d, "regras_negocio");
    var body := Body(d);
    match r
    case SizeRule =>
      var c := IntToString(Complexity(d));
      if apis != [] then
        "Considere dividir '" + titulo + "' em histórias menores. "
        + "Por exemplo, separe a integração com " + apis[0] + " em uma história dedicada. "
        + "Complexidade atual: " + c + " pontos."
      else
        "'" + titulo + "' tem complexidade de " + c + " pontos. "
        + "Considere dividir em: 1) Backend/lógica, 2) Frontend/UI, 3) Integrações."
    case CriteriaRule =>
      var n := IntToString(|ListField(d, "criterios_aceitacao")|);
      if Contains(body, "api") || apis != [] then
        "Adicione critérios de aceitação para cenários de erro da API "
        + "(timeout, resposta inválida, autenticação falha). Atualmente: " + n + " critérios."
      else if Contains(body, "usuario") || Contains(body, "login") then
        "Adicione critérios para validação de entrada do usuário "
        + "(campos obrigatórios, formatos, limites). Atualmente: " + n + " critérios."
      else
        "Adicione critérios de aceitação para cenários de borda e erros. "
        + "Atualmente: " + n + " critérios, recomendado mínimo 3."
    case ValueRule =>
      if regras != [] then
        "Quantifique o valor de negócio. Ex: para a regra '" + Take(regras[0], 50) + "...', "
        + "defina métricas como tempo de resposta esperado ou taxa de sucesso."
      else
        "Defina métricas de sucesso mensuráveis para '" + titulo + "'. "
        + "Ex: tempo de carregamento < 2s, taxa de erro < 1%."
    case DependencyRule =>
      "Identifique as dependências em '" + titulo + "' e crie mocks/stubs "
      + "para permitir desenvolvimento paralelo. Considere usar feature flags."
    case SearchRule =>
      "Para funcionalidade de busca: adicione critério para busca sem resultados, "
      + "limite de caracteres, e comportamento com caracteres especiais."
    case FormRule =>
      "Para formulários: especifique validações de cada campo, "
      + "mensagens de erro específicas, e comportamento ao perder conexão."
  }

  /** The rules of `rules` that fire, in order. */
  function FiredRules(d: StoryDict, sc: InvestScore, rules: seq<Rule>): seq<Rule>
    decreases |rules|
  {
    if rules == [] then []
    else
      var last := rules[|rules| - 1];
      FiredRules(d, sc, rules[..|rules| - 1]) + (if Fires(d, sc, last) then [last] else [])
  }

  function AdviceList(d: StoryDict, rules: seq<Rule>): (r: seq<string>)
    ensures |r| == |rules|
    ensures forall k :: 0 <= k < |rules| ==> r[k] == Advice(d, rules[k])
  {
    seq(|rules|, k requires 0 <= k < |rules| => Advice(d, rules[k]))
  }

  function TakeRules(rules: seq<Rule>, n: nat): seq<Rule> {
    if |rules| <= n then rules else rules[..n]
  }

  /** The rules whose suggestions are kept: the first five that fire. */
  function KeptRules(d: StoryDict, sc: InvestScore): seq<Rule> {
    TakeRules(FiredRules(d, sc, Rules), MaxSuggestions)
  }

  function Suggestions(d: StoryDict, sc: InvestScore): seq<string> {
    AdviceList(d, KeptRules(d, sc))
  }

  lemma {:induction false} FiredRulesMembership(d: StoryDict, sc: InvestScore, rules: seq<Rule>, r: Rule)
    ensures r in FiredRules(d, sc, rules) <==> r in rules && Fires(d, sc, r)
    decreases |rules|
  {
    if rules != [] {
      var init := rules[..|rules| - 1];
      FiredRulesMembership(d, sc, init, r);
      assert rules == init + [rules[|rules| - 1]];
    }
  }

  predicate RuleRanksIncrease(rules: seq<Rule>) {
    forall i, j :: 0 <= i < j < |rules| ==> RuleRank(rules[i]) < RuleRank(rules[j])
  }

  lemma {:induction false} FiredRulesInOrder(d: StoryDict, sc: InvestScore, rules: seq<Rule>)
    requires RuleRanksIncrease(rules)
    ensures RuleRanksIncrease(FiredRules(d, sc, rules))
    decreases |rules|
  {
    if rules != [] {
      var init := rules[..|rules| - 1];
      var last := rules[|rules| - 1];
      FiredRulesInOrder(d, sc, init);
      var f0 := FiredRules(d, sc, init);
      forall x | x in f0 ensures RuleRank(x) < RuleRank(last) {
        FiredRulesMembership(d, sc, init, x);
        var k :| 0 <= k < |init| && init[k] == x;
        assert rules[k] == x;
      }
      var f := FiredRules(d, sc, rules);
      assert f == f0 + (if Fires(d, sc, last) then [last] else []);
      forall i, j | 0 <= i < j < |f| ensures RuleRank(f[i]) < RuleRank(f[j]) {
        assert f[i] == f0[i] && f0[i] in f0;
        if j < |f0| {
          assert f[j] == f0[j];
          assert RuleRank(f0[i]) < RuleRank(f0[j]);
        } else {
          assert f[j] == last;
        }
      }
    }
  }

  lemma {:induction false} FiredRulesCount(d: StoryDict, sc: InvestScore, rules: seq<Rule>)
    ensures |FiredRules(d, sc, rules)| <= |rules|
    decreases |rules|
  {
    if rules != [] {
      FiredRulesCount(d, sc, rules[..|rules| - 1]);
    }
  }

  /** `FiredRules` over a concatenation is the concatenation of the two. */
  lemma {:induction false} FiredRulesAppend(d: StoryDict, sc: InvestScore, a: seq<Rule>, b: seq<Rule>)
    ensures FiredRules(d, sc, a + b) == FiredRules(d, sc, a) + FiredRules(d, sc, b)
    decreases |b|
  {
    if b == [] {
      assert a + b == a;
    } else {
      var init := b[..|b| - 1];
      FiredRulesAppend(d, sc, a, init);
      assert (a + b)[..|a + b| - 1] == a + init;
    }
  }

  /** The rules tried before `r`. */
  function RulesBefore(r: Rule): seq<Rule> {
    Rules[..RuleRank(r)]
  }

  /**
   * The suggestion list: at most five, in rule order, and a rule's suggestion
   * is kept exactly when the rule fires and fewer than five earlier rules fired.
   */
  lemma SuggestionsSelected(d: StoryDict, sc: InvestScore)
    ensures |Suggestions(d, sc)| <= MaxSuggestions
    ensures forall k :: 0 <= k < |KeptRules(d, sc)| ==> Suggestions(d, sc)[k] == Advice(d, KeptRules(d, sc)[k])
    ensures RuleRanksIncrease(KeptRules(d, sc))
    ensures forall r :: r in KeptRules(d, sc) <==> Fires(d, sc, r) && |FiredRules(d, sc, RulesBefore(r))| < MaxSuggestions
  {
    assert RuleRanksIncrease(Rules);
    FiredRulesInOrder(d, sc, Rules);
    forall r ensures r in KeptRules(d, sc) <==> Fires(d, sc, r) && |FiredRules(d, sc, RulesBefore(r))| < MaxSuggestions {
      KeptRule(d, sc, r);
    }
  }

  /** A rule absent from `before` survives the cut exactly when `before` is shorter than the cut. */
  lemma TakeAt(before: seq<Rule>, r: Rule, rest: seq<Rule>, n: nat)
    requires r !in before
    ensures r in TakeRules(before + [r] + rest, n) <==> |before| < n
  {
    var all := before + [r] + rest;
    var kept := TakeRules(all, n);
    if |before| < n {
      assert all[|before|] == r;
      assert kept[|before|] == r;
    } else {
      assert forall k :: 0 <= k < |kept| ==> kept[k] == before[k] && before[k] in before;
    }
  }

  lemma TakeWithin(all: seq<Rule>, r: Rule, n: nat)
    requires r !in all
    ensures r !in TakeRules(all, n)
  {
    var kept := TakeRules(all, n);
    assert forall k :: 0 <= k < |kept| ==> kept[k] == all[k] && all[k] in all;
  }

  /** Each rule sits in the table at its rank, once. */
  lemma RulePosition(r: Rule)
    ensures Rules == RulesBefore(r) + [r] + Rules[RuleRank(r) + 1..]
    ensures r !in RulesBefore(r)
  {
    var p := RuleRank(r);
    assert Rules == Rules[..p] + [r] + Rules[p + 1..];
    forall k | 0 <= k < p ensures Rules[..p][k] != r {
      assert RuleRank(Rules[k]) == k;
    }
  }

  /** Where a rule's suggestion lands: right after those of the earlier rules that fired. */
  lemma KeptRule(d: StoryDict, sc: InvestScore, r: Rule)
    ensures r in KeptRules(d, sc) <==> Fires(d, sc, r) && |FiredRules(d, sc, RulesBefore(r))| < MaxSuggestions
  {
    var head := RulesBefore(r);
    var tail := Rules[RuleRank(r) + 1..];
    RulePosition(r);
    FiredRulesAppend(d, sc, head + [r], tail);
    FiredRulesAppend(d, sc, head, [r]);
    assert FiredRules(d, sc, [r]) == FiredRules(d, sc, []) + (if Fires(d, sc, r) then [r] else []);
    var before := FiredRules(d, sc, head);
    FiredRulesMembership(d, sc, head, r);
    assert r !in before;
    if Fires(d, sc, r) {
      assert FiredRules(d, sc, Rules) == before + [r] + FiredRules(d, sc, tail);
      TakeAt(before, r, FiredRules(d, sc, tail), MaxSuggestions);
    } else {
      FiredRulesMembership(d, sc, Rules, r);
      TakeWithin(FiredRules(d, sc, Rules), r, MaxSuggestions);
    }
  }

  lemma FiredRulesStep(d: StoryDict, sc: InvestScore, k: nat)
    requires k < |Rules|
    ensures FiredRules(d, sc, Rules[..k + 1]) ==
      FiredRules(d, sc, Rules[..k]) + (if Fires(d, sc, Rules[k]) then [Rules[k]] else [])
  {
    assert Rules[..k + 1][..k] == Rules[..k];
  }

  lemma AdviceListSnoc(d: StoryDict, rules: seq<Rule>, r: Rule)
    ensures AdviceList(d, rules + [r]) == AdviceList(d, rules) + [Advice(d, r)]
  {
  }

  /** The decision table tried rule by rule, then the cut to five. */
  method GenerateBasicSuggestions(d: StoryDict, sc: InvestScore) returns (suggestions: seq<string>)
    ensures suggestions == Suggestions(d, sc)
  {
    ghost var fired: seq<Rule> := [];
    suggestions := [];
    var i := 0;
    while i < |Rules|
      invariant 0 <= i <= |Rules|
      invariant fired == FiredRules(d, sc, Rules[..i])
      invariant suggestions == AdviceList(d, fired)
    {
      var rule := Rules[i];
      FiredRulesStep(d, sc, i);
      if Fires(d, sc, rule) {
        AdviceListSnoc(d, fired, rule);
        suggestions := suggestions + [Advice(d, rule)];
        fired := fired + [rule];
      }
      i := i + 1;
    }
    assert Rules[..i] == Rules;
    if |suggestions| > MaxSuggestions {
      assert AdviceList(d, fired[..MaxSuggestions]) == suggestions[..MaxSuggestions];
      suggestions := suggestions[..MaxSuggestions];
    }
  }

  /** With every rule firing, the form-validation advice is the one cut. */
  lemma AllRulesFireDropsForm(d: StoryDict, sc: InvestScore)
    requires forall r :: Fires(d, sc, r)
    ensures KeptRules(d, sc) == [SizeRule, CriteriaRule, ValueRule, DependencyRule, SearchRule]
  {
    assert Rules[..0] == [];
    FiredRulesStep(d, sc, 0);
    FiredRulesStep(d, sc, 1);
    FiredRulesStep(d, sc, 2);
    FiredRulesStep(d, sc, 3);
    FiredRulesStep(d, sc, 4);
    FiredRulesStep(d, sc, 5);
    assert Rules[..6] == Rules;
  }

  // -------------------------------------------------------- whole score

  /** The sub-scores and their justifications, before the lists are filled in. */
  function SubScores(d: StoryDict): InvestScore {
    var ind := CheckIndependent(d);
    var val := CheckValuable(d);
    var est := CheckEstimable(d);
    var sml := CheckSmall(d);
    var tst := CheckTestable(d);
    InvestScore(ind, NegotiableScore, val, est, sml, tst, Justifications(ind, val, est, sml, tst, Complexity(d)), [], [], [])
  }

  /** The justification texts, one per dimension. */
  function Justifications(ind: int, val: int, est: int, sml: int, tst: int, c: int): map<string, string> {
    map[
      "independent" := JustifyIndependent(ind),
      "negotiable" := NegotiableNote,
      "valuable" := JustifyValuable(val),
      "estimable" := JustifyEstimable(est),
      "small" := JustifySmall(sml, c),
      "testable" := JustifyTestable(tst)]
  }

  /** The complete local assessment of a story dictionary. */
  function LocalScore(d: StoryDict): InvestScore {
    Completed(SubScores(d), d)
  }

  /** The sub-scores with the strengths, the weaknesses and then the suggestions filled in. */
  function Completed(base: InvestScore, d: StoryDict): InvestScore {
    var classified := base.(strengths := Strengths(base), weaknesses := Weaknesses(base));
    classified.(suggestions := Suggestions(d, classified))
  }

  /** The scorer: each field assigned in turn, then the lists. */
  method ValidateInvestLocal(d: StoryDict) returns (score: InvestScore)
    ensures score == LocalScore(d)
  {
    score := InvestScore(0, 0, 0, 0, 0, 0, map[], [], [], []);
    score := score.(independent := CheckIndependent(d));
    score := score.(justifications := score.justifications["independent" := JustifyIndependent(score.independent)]);
    score := score.(negotiable := NegotiableScore);
    score := score.(justifications := score.justifications["negotiable" := NegotiableNote]);
    score := score.(valuable := CheckValuable(d));
    score := score.(justifications := score.justifications["valuable" := JustifyValuable(score.valuable)]);
    score := score.(estimable := CheckEstimable(d));
    score := score.(justifications := score.justifications["estimable" := JustifyEstimable(score.estimable)]);
    score := score.(small := CheckSmall(d));
    score := score.(justifications := score.justifications["small" := JustifySmall(score.small, Complexity(d))]);
    score := score.(testable := CheckTestable(d));
    score := score.(justifications := score.justifications["testable" := JustifyTestable(score.testable)]);
    var strengths, weaknesses := GenerateStrengthsWeaknesses(score);
    score := score.(strengths := strengths, weaknesses := weaknesses);
    var suggestions := GenerateBasicSuggestions(d, score);
    score := score.(suggestions := suggestions);
  }

  // ---------------------------------------------------------- properties

  /** The whole score keeps the sub-scores and justifications and classifies them. */
  lemma LocalScoreParts(d: StoryDict)
    ensures var sc := LocalScore(d); var base := SubScores(d);
      && ScoreOf(sc, Independent) == ScoreOf(base, Independent) && ScoreOf(sc, Negotiable) == ScoreOf(base, Negotiable)
      && ScoreOf(sc, Valuable) == ScoreOf(base, Valuable) && ScoreOf(sc, Estimable) == ScoreOf(base, Estimable)
      && ScoreOf(sc, Small) == ScoreOf(base, Small) && ScoreOf(sc, Testable) == ScoreOf(base, Testable)
      && sc.justifications == base.justifications
      && sc.strengths == Strengths(base)
      && sc.weaknesses == Weaknesses(base)
  {
    CompletedParts(SubScores(d), d);
  }

  /** Completing a score keeps its sub-scores and justifications and classifies them. */
  lemma CompletedParts(base: InvestScore, d: StoryDict)
    ensures var sc := Completed(base, d);
      && ScoreOf(sc, Independent) == ScoreOf(base, Independent) && ScoreOf(sc, Negotiable) == ScoreOf(base, Negotiable)
      && ScoreOf(sc, Valuable) == ScoreOf(base, Valuable) && ScoreOf(sc, Estimable) == ScoreOf(base, Estimable)
      && ScoreOf(sc, Small) == ScoreOf(base, Small) && ScoreOf(sc, Testable) == ScoreOf(base, Testable)
      && sc.justifications == base.justifications
      && sc.strengths == Strengths(base)
      && sc.weaknesses == Weaknesses(base)
  {
  }

  /** Negotiability is fixed at 70, so no report line names it. */
  lemma NegotiableNeverListed(d: StoryDict)
    ensures LocalScore(d).negotiable == 70
    ensures forall x :: x in LocalScore(d).strengths + LocalScore(d).weaknesses ==> EntryRank(x) != Rank(Negotiable)
  {
    LocalScoreParts(d);
    var base := SubScores(d);
    NegotiableUnclassified(base, true);
    NegotiableUnclassified(base, false);
    assert forall x :: x in LocalScore(d).strengths + LocalScore(d).weaknesses ==>
      x in Classified(base, Dimensions, true) || x in Classified(base, Dimensions, false);
  }

  /** A negotiable score of 70 qualifies for neither list. */
  lemma NegotiableUnclassified(base: InvestScore, strong: bool)
    requires base.negotiable == 70
    ensures forall x :: x in Classified(base, Dimensions, strong) ==> EntryRank(x) != Rank(Negotiable)
  {
    forall x | x in Classified(base, Dimensions, strong) ensures EntryRank(x) != Rank(Negotiable) {
      var q := QualifyingDims(base, Dimensions, strong);
      ClassifiedLines(base, Dimensions, strong);
      var i :| 0 <= i < |q| && Classified(base, Dimensions, strong)[i] == x;
      EntryRankOf(q[i], ScoreOf(base, q[i]));
      QualifyingMembership(base, Dimensions, strong, q[i]);
      assert q[i] != Negotiable;
    }
  }

  lemma SubScoresJustified(d: StoryDict)
    ensures var base := SubScores(d); var j := base.justifications;
      && j["independent"] == JustifyIndependent(base.independent)
      && j["valuable"] == JustifyValuable(base.valuable)
      && j["estimable"] == JustifyEstimable(base.estimable)
      && j["small"] == JustifySmall(base.small, Complexity(d))
      && j["testable"] == JustifyTestable(base.testable)
  {
    var base := SubScores(d);
    JustificationsLookup(base.independent, base.valuable, base.estimable, base.small, base.testable, Complexity(d));
  }

  lemma JustificationsLookup(ind: int, val: int, est: int, sml: int, tst: int, c: int)
    ensures var j := Justifications(ind, val, est, sml, tst, c);
      && j["independent"] == JustifyIndependent(ind)
      && j["valuable"] == JustifyValuable(val)
      && j["estimable"] == JustifyEstimable(est)
      && j["small"] == JustifySmall(sml, c)
      && j["testable"] == JustifyTestable(tst)
  {
  }

  lemma IndependentTiers(v: int)
    ensures JustifyIndependent(v) == IndependentHigh <==> v >= 80
    ensures JustifyIndependent(v) == IndependentLow <==> v < 50
  {
    assert |IndependentHigh| != |IndependentMid| && |IndependentMid| != |IndependentLow| && |IndependentLow| != |IndependentHigh|;
  }

  lemma ValuableTiers(v: int)
    ensures JustifyValuable(v) == ValuableHigh <==> v >= 80
    ensures JustifyValuable(v) == ValuableLow <==> v < 50
  {
    assert |ValuableHigh| != |ValuableMid| && |ValuableMid| != |ValuableLow| && |ValuableLow| != |ValuableHigh|;
  }

  lemma EstimableTiers(v: int)
    ensures JustifyEstimable(v) == EstimableHigh <==> v >= 80
    ensures JustifyEstimable(v) == EstimableLow <==> v < 80
  {
    assert |EstimableHigh| != |EstimableLow|;
  }

  lemma TestableTiers(v: int)
    ensures JustifyTestable(v) == TestableHigh <==> v >= 80
    ensures JustifyTestable(v) == TestableLow <==> v < 50
  {
    assert |TestableHigh| != |TestableMid| && |TestableMid| != |TestableLow| && |TestableLow| != |TestableHigh|;
  }

  lemma SmallTiers(v: int, c: int)
    ensures JustifySmall(v, c) == SmallHigh(c) <==> v >= 90
    ensures JustifySmall(v, c) == SmallLow(c) <==> v < 70
  {
    var n := |IntToString(c)|;
    assert |SmallHigh(c)| != |SmallMid(c)| && |SmallMid(c)| != |SmallLow(c)| && |SmallLow(c)| != |SmallHigh(c)|;
  }

  /** The independent justification is the top text exactly for a strength and the bottom one exactly for a weakness. */
  lemma IndependentClassified(base: InvestScore)
    ensures JustifyIndependent(base.independent) == IndependentHigh <==> Entry(Independent, base.independent) in Strengths(base)
    ensures JustifyIndependent(base.independent) == IndependentLow <==> Entry(Independent, base.independent) in Weaknesses(base)
  {
    ClassifiedHas(base, true, Independent);
    ClassifiedHas(base, false, Independent);
    IndependentTiers(base.independent);
  }

  lemma IndependentJustified(d: StoryDict)
    ensures var sc := LocalScore(d);
      && (sc.justifications["independent"] == IndependentHigh <==> Entry(Independent, sc.independent) in sc.strengths)
      && (sc.justifications["independent"] == IndependentLow <==> Entry(Independent, sc.independent) in sc.weaknesses)
  {
    var base := SubScores(d);
    LocalScoreParts(d);
    SubScoresJustified(d);
    IndependentClassified(base);
  }

  /** The valuable justification is the top text exactly for a strength and the bottom one exactly for a weakness. */
  lemma ValuableClassified(base: InvestScore)
    ensures JustifyValuable(base.valuable) == ValuableHigh <==> Entry(Valuable, base.valuable) in Strengths(base)
    ensures JustifyValuable(base.valuable) == ValuableLow <==> Entry(Valuable, base.valuable) in Weaknesses(base)
  {
    ClassifiedHas(base, true, Valuable);
    ClassifiedHas(base, false, Valuable);
    ValuableTiers(base.valuable);
  }

  lemma ValuableJustified(d: StoryDict)
    ensures var sc := LocalScore(d);
      && (sc.justifications["valuable"] == ValuableHigh <==> Entry(Valuable, sc.valuable) in sc.strengths)
      && (sc.justifications["valuable"] == ValuableLow <==> Entry(Valuable, sc.valuable) in sc.weaknesses)
  {
    var base := SubScores(d);
    LocalScoreParts(d);
    SubScoresJustified(d);
    ValuableClassified(base);
  }

  /** Among the two estimability scores, the justification is the top text exactly for a strength and the bottom one exactly for a weakness. */
  lemma EstimableClassified(base: InvestScore)
    requires base.estimable == 100 || base.estimable == 20
    ensures JustifyEstimable(base.estimable) == EstimableHigh <==> Entry(Estimable, base.estimable) in Strengths(base)
    ensures JustifyEstimable(base.estimable) == EstimableLow <==> Entry(Estimable, base.estimable) in Weaknesses(base)
  {
    ClassifiedHas(base, true, Estimable);
    ClassifiedHas(base, false, Estimable);
    EstimableTiers(base.estimable);
  }

  lemma EstimableJustified(d: StoryDict)
    ensures var sc := LocalScore(d);
      && (sc.justifications["estimable"] == EstimableHigh <==> Entry(Estimable, sc.estimable) in sc.strengths)
      && (sc.justifications["estimable"] == EstimableLow <==> Entry(Estimable, sc.estimable) in sc.weaknesses)
  {
    var base := SubScores(d);
    LocalScoreParts(d);
    SubScoresJustified(d);
    EstimableClassified(base);
  }

  /** The testable justification is the top text exactly for a strength and the bottom one exactly for a weakness. */
  lemma TestableClassified(base: InvestScore)
    ensures JustifyTestable(base.testable) == TestableHigh <==> Entry(Testable, base.testable) in Strengths(base)
    ensures JustifyTestable(base.testable) == TestableLow <==> Entry(Testable, base.testable) in Weaknesses(base)
  {
    ClassifiedHas(base, true, Testable);
    ClassifiedHas(base, false, Testable);
    TestableTiers(base.testable);
  }

  lemma TestableJustified(d: StoryDict)
    ensures var sc := LocalScore(d);
      && (sc.justifications["testable"] == TestableHigh <==> Entry(Testable, sc.testable) in sc.strengths)
      && (sc.justifications["testable"] == TestableLow <==> Entry(Testable, sc.testable) in sc.weaknesses)
  {
    var base := SubScores(d);
    LocalScoreParts(d);
    SubScoresJustified(d);
    TestableClassified(base);
  }

  /** Among the size scores, the justification is the top text exactly for a strength, and the bottom one for a weakness or the undefined size's 50. */
  lemma SmallClassified(base: InvestScore, c: int)
    requires base.small in {100, 90, 70, 50, 30}
    ensures JustifySmall(base.small, c) == SmallHigh(c) <==> Entry(Small, base.small) in Strengths(base)
    ensures JustifySmall(base.small, c) == SmallLow(c) <==> Entry(Small, base.small) in Weaknesses(base) || base.small == 50
  {
    ClassifiedHas(base, true, Small);
    ClassifiedHas(base, false, Small);
    SmallTiers(base.small, c);
  }

  lemma SmallJustified(d: StoryDict)
    ensures var sc := LocalScore(d);
      && (sc.justifications["small"] == SmallHigh(Complexity(d)) <==> Entry(Small, sc.small) in sc.strengths)
      && (sc.justifications["small"] == SmallLow(Complexity(d)) <==>
            Entry(Small, sc.small) in sc.weaknesses || Complexity(d) == 0)
  {
    var base := SubScores(d);
    LocalScoreParts(d);
    SubScoresJustified(d);
    SmallClassified(base, Complexity(d));
  }

  /**
   * The justification agrees with the classification: the top text exactly for
   * a strength and the bottom text exactly for a weakness, except that an
   * undefined size (complexity 0) gets the bottom text without being a weakness.
   */
  lemma JustificationTiers(d: StoryDict)
    ensures var sc := LocalScore(d);
      && (sc.justifications["independent"] == IndependentHigh <==> Entry(Independent, sc.independent) in sc.strengths)
      && (sc.justifications["independent"] == IndependentLow <==> Entry(Independent, sc.independent) in sc.weaknesses)
      && (sc.justifications["valuable"] == ValuableHigh <==> Entry(Valuable, sc.valuable) in sc.strengths)
      && (sc.justifications["valuable"] == ValuableLow <==> Entry(Valuable, sc.valuable) in sc.weaknesses)
      && (sc.justifications["estimable"] == EstimableHigh <==> Entry(Estimable, sc.estimable) in sc.strengths)
      && (sc.justifications["estimable"] == EstimableLow <==> Entry(Estimable, sc.estimable) in sc.weaknesses)
      && (sc.justifications["testable"] == TestableHigh <==> Entry(Testable, sc.testable) in sc.strengths)
      && (sc.justifications["testable"] == TestableLow <==> Entry(Testable, sc.testable) in sc.weaknesses)
      && (sc.justifications["small"] == SmallHigh(Complexity(d)) <==> Entry(Small, sc.small) in sc.strengths)
      && (sc.justifications["small"] == SmallLow(Complexity(d)) <==>
            Entry(Small, sc.small) in sc.weaknesses || Complexity(d) == 0)
  {
    IndependentJustified(d);
    ValuableJustified(d);
    EstimableJustified(d);
    TestableJustified(d);
    SmallJustified(d);
  }

  /** The form always sends three objective keys, so value scores 90 even when all three are blank. */
  lemma ValuableIgnoresBlankObjectives(d: StoryDict)
    requires "objetivos" in d && d["objetivos"] == VDict([("como", ""), ("quero", ""), ("para_que", "")])
    ensures LocalScore(d).valuable == 90
    ensures Entry(Valuable, 90) in LocalScore(d).strengths
  {
    LocalScoreParts(d);
    ClassifiedHas(SubScores(d), true, Valuable);
  }

  /** The dictionary of a story gives the heuristics the story's own complexity, criteria and objectives. */
  lemma ToDictReadsBack(s: Story)
    ensures Complexity(ToDict(s)) == s.complexidade
    ensures ListField(ToDict(s), "criterios_aceitacao") == s.criteriosAceitacao
    ensures EntryCount(ToDict(s), "objetivos") == |s.objetivos|
  {
    var d := ToDict(s);
    assert Complexity(d) == s.complexidade;
    assert ListField(d, "criterios_aceitacao") == s.criteriosAceitacao;
  }

  /** A constructed story is always estimable, and listed as a strength for it. */
  lemma ValidStoryEstimable(s: Story)
    requires ValidStory(s)
    ensures LocalScore(ToDict(s)).estimable == 100
    ensures Entry(Estimable, 100) in LocalScore(ToDict(s)).strengths
  {
    ToDictReadsBack(s);
    LocalScoreParts(ToDict(s));
    var base := SubScores(ToDict(s));
    assert base.estimable == 100;
    EstimateStrong(base);
  }

  lemma EstimateStrong(base: InvestScore)
    requires base.estimable == 100
    ensures Entry(Estimable, 100) in Strengths(base)
  {
    ClassifiedHas(base, true, Estimable);
  }

  /** A constructed story never gets the undefined size, and gets the lowest size score exactly above 13 points. */
  lemma ValidStorySize(s: Story)
    requires ValidStory(s)
    ensures LocalScore(ToDict(s)).small != 50
    ensures LocalScore(ToDict(s)).small == 30 <==> s.complexidade > 13
  {
    ToDictReadsBack(s);
    LocalScoreParts(ToDict(s));
  }

  /** The value and test scores of a constructed story hit bottom exactly without objectives or without criteria. */
  lemma ValidStoryCoverage(s: Story)
    requires ValidStory(s)
    ensures LocalScore(ToDict(s)).testable == 10 <==> s.criteriosAceitacao == []
    ensures LocalScore(ToDict(s)).valuable == 30 <==> s.objetivos == []
  {
    ToDictReadsBack(s);
    LocalScoreParts(ToDict(s));
  }

  /** A negative complexity is judged not estimable yet of ideal size at once. */
  lemma NegativeComplexityDisagrees(d: StoryDict)
    requires Complexity(d) < 0
    ensures Entry(Estimable, 20) in LocalScore(d).weaknesses
    ensures Entry(Small, 100) in LocalScore(d).strengths
  {
    LocalScoreParts(d);
    var base := SubScores(d);
    assert base.estimable == 20 && base.small == 100;
    LowEstimateHighSize(base);
  }

  lemma LowEstimateHighSize(base: InvestScore)
    requires base.estimable == 20 && base.small == 100
    ensures Entry(Estimable, 20) in Weaknesses(base)
    ensures Entry(Small, 100) in Strengths(base)
  {
    ClassifiedHas(base, false, Estimable);
    ClassifiedHas(base, true, Small);
  }
}
