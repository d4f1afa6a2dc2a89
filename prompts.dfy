// The prompt builders of the AI service. The long fixed prose of each prompt
// is not modelled: a builder is its prose pieces with computed fragments in
// the slots between them, stripped. What is modelled is how each fragment is
// computed from the form.

module Prompts {
  import opened Base
  import opened Text
  import opened Splice
  import opened FormData

  // ------------------------------------------------------------ templates

  /** `prose` holds the `n + 1` fixed pieces around `n` slots; filling puts each fragment in its slot. */
  function Fill(prose: seq<string>, slots: seq<string>): string
    requires |prose| == |slots| + 1
    decreases |slots|
  {
    if slots == [] then prose[0]
    else Fill(prose[..|slots|], slots[..|slots| - 1]) + slots[|slots| - 1] + prose[|slots|]
  }

  lemma {:induction false} FillStarts(prose: seq<string>, slots: seq<string>)
    requires |prose| == |slots| + 1
    ensures prose[0] <= Fill(prose, slots)
    decreases |slots|
  {
    if slots != [] {
      FillStarts(prose[..|slots|], slots[..|slots| - 1]);
    }
  }

  /** Every slot lies in the filled template after the first piece of prose and before the last. */
  lemma {:induction false} FillFrames(prose: seq<string>, slots: seq<string>, k: nat)
    requires |prose| == |slots| + 1 && k < |slots|
    ensures exists a, b :: Fill(prose, slots) == a + slots[k] + b && prose[0] <= a && EndsWith(b, prose[|slots|])
    decreases |slots|
  {
    var n := |slots|;
    var front := Fill(prose[..n], slots[..n - 1]);
    if k == n - 1 {
      FillStarts(prose[..n], slots[..n - 1]);
      assert prose[..n][0] == prose[0] && slots[k] == slots[n - 1];
      assert Fill(prose, slots) == front + slots[k] + prose[n];
      assert prose[n][|prose[n]| - |prose[n]|..] == prose[n];
      assert prose[0] <= front && EndsWith(prose[n], prose[n]);
    } else {
      FillFrames(prose[..n], slots[..n - 1], k);
      var a, b :| front == a + slots[..n - 1][k] + b && prose[..n][0] <= a && EndsWith(b, prose[..n][n - 1]);
      assert slots[..n - 1][k] == slots[k] && prose[..n][0] == prose[0];
      var b' := b + slots[n - 1] + prose[n];
      assert Fill(prose, slots) == front + slots[n - 1] + prose[n];
      assert b'[|b'| - |prose[n]|..] == prose[n];
      assert Fill(prose, slots) == a + slots[k] + b';
      assert prose[0] <= a && EndsWith(b', prose[n]);
    }
  }

  predicate EndsWith(s: string, suffix: string) {
    |suffix| <= |s| && s[|s| - |suffix|..] == suffix
  }

  /** A filled template, stripped: every builder returns `prompt.strip()`. */
  function Render(prose: seq<string>, slots: seq<string>): (r: string)
    requires |prose| == |slots| + 1
    ensures Strip(r) == r
  {
    StripIdempotent(Fill(prose, slots));
    Strip(Fill(prose, slots))
  }

  /** When the first and last pieces of prose hold text, stripping loses no fragment. */
  lemma RenderKeepsSlots(prose: seq<string>, slots: seq<string>, k: nat)
    requires |prose| == |slots| + 1 && k < |slots|
    requires !AllSpace(prose[0]) && !AllSpace(prose[|slots|])
    ensures Contains(Render(prose, slots), slots[k])
  {
    FillFrames(prose, slots, k);
    var a, b :| Fill(prose, slots) == a + slots[k] + b && prose[0] <= a && EndsWith(b, prose[|slots|]);
    var p :| 0 <= p < |prose[0]| && !IsSpace(prose[0][p]);
    assert a[p] == prose[0][p];
    var last := prose[|slots|];
    var q :| 0 <= q < |last| && !IsSpace(last[q]);
    assert b[|b| - |last| + q] == last[q];
    StripKeepsInterior(a, slots[k], b);
  }

  /** The fixed prose of the five prompts. */
  datatype Templates = Templates(
    business: seq<string>,
    spike: seq<string>,
    kaizen: seq<string>,
    fix: seq<string>,
    regeneration: seq<string>)

  /** Each template has one piece more than its prompt has slots. */
  predicate WellFormed(t: Templates) {
    && |t.business| == 10
    && |t.spike| == 9
    && |t.kaizen| == 9
    && |t.fix| == 21
    && |t.regeneration| == 13
  }

  // ----------------------------------------------------------- objectives

  /** The label of an objective: the three known keys are named, any other key is title-cased with spaces for underscores. */
  function ObjectiveLabel(key: string): string {
    if key == "como" then "Como"
    else if key == "quero" then "Quero"
    else if key == "para_que" then "Para que"
    else TitleCase(ReplaceChar(key, '_', ' '))
  }

  /** An unknown key keeps its letters, up to case, and has its underscores turned into spaces. */
  lemma ObjectiveLabelOther(key: string, i: nat)
    requires key != "como" && key != "quero" && key != "para_que"
    requires i < |key|
    ensures |ObjectiveLabel(key)| == |key|
    ensures key[i] == '_' ==> ObjectiveLabel(key)[i] == ' '
    ensures key[i] != '_' ==> SameIgnoringCase(ObjectiveLabel(key)[i], key[i])
  {
    TitleCaseAt(ReplaceChar(key, '_', ' '), i);
  }

  function ObjectiveLine(key: string, value: string): string {
    ObjectiveLabel(key) + ": " + Strip(value)
  }

  /** The objective lines: one per entry whose value is not blank, with the value stripped, in entry order. */
  function ObjectiveLines(entries: seq<(string, string)>): (r: seq<string>)
    ensures |r| <= |entries|
    decreases |entries|
  {
    if entries == [] then []
    else
      var (k, v) := entries[|entries| - 1];
      ObjectiveLines(entries[..|entries| - 1]) + (if Strip(v) != [] then [ObjectiveLine(k, v)] else [])
  }

  /** `l` is the line of objective entry `e`: its value is not blank and `l` names it. */
  predicate LineOf(e: (string, string), l: string) {
    !AllSpace(e.1) && l == ObjectiveLine(e.0, e.1)
  }

  lemma ObjectiveLinesSnoc(entries: seq<(string, string)>, l: string)
    requires entries != []
    ensures l in ObjectiveLines(entries) <==>
      l in ObjectiveLines(entries[..|entries| - 1]) || LineOf(entries[|entries| - 1], l)
  {
    var last := entries[|entries| - 1];
    StripEmptyIffAllSpace(last.1);
  }

  /** Every objective line comes from an entry. */
  lemma {:induction false} ObjectiveLineSource(entries: seq<(string, string)>, l: string) returns (k: nat)
    requires l in ObjectiveLines(entries)
    ensures k < |entries| && LineOf(entries[k], l)
    decreases |entries|
  {
    var n := |entries|;
    var init := entries[..n - 1];
    ObjectiveLinesSnoc(entries, l);
    if l in ObjectiveLines(init) {
      k := ObjectiveLineSource(init, l);
      assert entries[k] == init[k];
    } else {
      k := n - 1;
    }
  }

  /** The lines of a concatenation are the lines of each part, in order. */
  lemma {:induction false} ObjectiveLinesAppend(a: seq<(string, string)>, b: seq<(string, string)>)
    ensures ObjectiveLines(a + b) == ObjectiveLines(a) + ObjectiveLines(b)
    decreases |b|
  {
    if b == [] {
      assert a + b == a;
    } else {
      var init := b[..|b| - 1];
      ObjectiveLinesAppend(a, init);
      assert (a + b)[..|a + b| - 1] == a + init;
      ConcatAssoc(ObjectiveLines(a), ObjectiveLines(init),
        if Strip(b[|b| - 1].1) != [] then [ObjectiveLine(b[|b| - 1].0, b[|b| - 1].1)] else []);
    }
  }

  /** Every entry with a non-blank value has its line. */
  lemma ObjectiveLineListed(entries: seq<(string, string)>, k: nat)
    requires k < |entries| && !AllSpace(entries[k].1)
    ensures ObjectiveLine(entries[k].0, entries[k].1) in ObjectiveLines(entries)
  {
    var e := entries[k];
    assert entries == entries[..k] + [e] + entries[k + 1..];
    ObjectiveLinesAppend(entries[..k] + [e], entries[k + 1..]);
    ObjectiveLinesAppend(entries[..k], [e]);
    StripEmptyIffAllSpace(e.1);
    assert ObjectiveLines([e]) == [ObjectiveLine(e.0, e.1)] by {
      assert [e][..0] == [];
    }
  }

  lemma ObjectiveLinesMembership(entries: seq<(string, string)>, l: string)
    ensures l in ObjectiveLines(entries) <==> exists k :: 0 <= k < |entries| && LineOf(entries[k], l)
  {
    if l in ObjectiveLines(entries) {
      var k := ObjectiveLineSource(entries, l);
    }
    forall k | 0 <= k < |entries| && LineOf(entries[k], l) ensures l in ObjectiveLines(entries) {
      ObjectiveLineListed(entries, k);
    }
  }

  /** The loop of the business builder that collects the objective lines. */
  method CollectObjectives(entries: seq<(string, string)>) returns (lines: seq<string>)
    ensures lines == ObjectiveLines(entries)
  {
    lines := [];
    var i := 0;
    while i < |entries|
      invariant 0 <= i <= |entries|
      invariant lines == ObjectiveLines(entries[..i])
    {
      assert entries[..i + 1][..i] == entries[..i];
      var (key, value) := entries[i];
      if value != [] && Strip(value) != [] {
        lines := lines + [ObjectiveLabel(key) + ": " + Strip(value)];
      }
      i := i + 1;
    }
    assert entries[..i] == entries;
  }

  const NoObjectives := "- Não especificado"

  function ObjectivesBlock(entries: seq<(string, string)>): string {
    var lines := ObjectiveLines(entries);
    if lines == [] then NoObjectives else BulletList(lines)
  }

  /** The block is the placeholder exactly when every objective is blank; otherwise it lists every non-blank one. */
  lemma ObjectivesBlockFacts(entries: seq<(string, string)>, k: nat)
    requires k < |entries|
    ensures (forall j :: 0 <= j < |entries| ==> AllSpace(entries[j].1)) ==> ObjectivesBlock(entries) == NoObjectives
    ensures !AllSpace(entries[k].1) ==>
      Contains(ObjectivesBlock(entries), "- " + ObjectiveLine(entries[k].0, entries[k].1))
  {
    var lines := ObjectiveLines(entries);
    if lines != [] {
      ObjectiveLinesMembership(entries, lines[0]);
    }
    if !AllSpace(entries[k].1) {
      var l := ObjectiveLine(entries[k].0, entries[k].1);
      ObjectiveLinesMembership(entries, l);
      var i :| 0 <= i < |lines| && lines[i] == l;
      BulletListContains(lines, i);
    }
  }

  // ------------------------------------------------------------ API specs

  /** One line of the API specification block. */
  datatype SpecItem =
    | Method(v: string)
    | Endpoint(v: string)
    | QueryParams(v: string)
    | PathParam(v: string)
    | Body(v: string)
    | ResponseFormat(v: string)

  /** The position of each kind of line in the block. */
  function SpecRank(item: SpecItem): nat {
    match item
    case Method(_) => 0
    case Endpoint(_) => 1
    case QueryParams(_) => 2
    case PathParam(_) => 3
    case Body(_) => 4
    case ResponseFormat(_) => 5
  }

  function SpecLine(item: SpecItem): string {
    match item
    case Method(v) => "Método HTTP: " + v
    case Endpoint(v) => "Endpoint: " + v
    case QueryParams(v) => "Parâmetros de Consulta (Query Params): " + v
    case PathParam(v) => "Parâmetro de Rota (Path Param): " + v
    case Body(v) => "Corpo da Requisição (Body): " + v
    case ResponseFormat(v) => "Formato de Resposta: " + v
  }

  /** Method and endpoint, each when given. */
  function HeadItems(m: Option<string>, e: Option<string>): seq<SpecItem> {
    (if m.Some? then [Method(m.value)] else []) + (if e.Some? then [Endpoint(e.value)] else [])
  }

  function SpecHead(spec: seq<(string, string)>): seq<SpecItem> {
    HeadItems(NonEmptyEntry(spec, "metodo"), NonEmptyEntry(spec, "endpoint"))
  }

  /** The fields the method calls for, each when given. */
  function MiddleItems(metodo: string, query: Option<string>, path: Option<string>, body: Option<string>): seq<SpecItem> {
    if metodo == "GET" && query.Some? then [QueryParams(query.value)]
    else if metodo == "POST" && body.Some? then [Body(body.value)]
    else if metodo == "PUT" || metodo == "PATCH" then
      (if path.Some? then [PathParam(path.value)] else []) + (if body.Some? then [Body(body.value)] else [])
    else if metodo == "DELETE" && path.Some? then [PathParam(path.value)]
    else []
  }

  function SpecMiddle(spec: seq<(string, string)>): seq<SpecItem> {
    MiddleItems(Lookup(spec, "metodo").GetOr(""), NonEmptyEntry(spec, "query_params"),
      NonEmptyEntry(spec, "path_param"), NonEmptyEntry(spec, "body"))
  }

  /** The response format, when given. */
  function TailItems(f: Option<string>): seq<SpecItem> {
    if f.Some? then [ResponseFormat(f.value)] else []
  }

  function SpecTail(spec: seq<(string, string)>): seq<SpecItem> {
    TailItems(NonEmptyEntry(spec, "formato_resposta"))
  }

  /** The lines the specification produces, in block order. */
  function SpecItems(spec: seq<(string, string)>): seq<SpecItem> {
    SpecHead(spec) + SpecMiddle(spec) + SpecTail(spec)
  }

  predicate RanksIncrease(items: seq<SpecItem>) {
    forall i, j :: 0 <= i < j < |items| ==> SpecRank(items[i]) < SpecRank(items[j])
  }

  predicate RanksWithin(items: seq<SpecItem>, lo: nat, hi: nat) {
    forall i :: 0 <= i < |items| ==> lo <= SpecRank(items[i]) <= hi && items[i].v != []
  }

  lemma SpecPartsFacts(spec: seq<(string, string)>)
    ensures RanksIncrease(SpecHead(spec)) && RanksWithin(SpecHead(spec), 0, 1)
    ensures RanksIncrease(SpecMiddle(spec)) && RanksWithin(SpecMiddle(spec), 2, 4)
    ensures RanksIncrease(SpecTail(spec)) && RanksWithin(SpecTail(spec), 5, 5)
  {
    HeadItemsFacts(NonEmptyEntry(spec, "metodo"), NonEmptyEntry(spec, "endpoint"));
    MiddleItemsFacts(Lookup(spec, "metodo").GetOr(""), NonEmptyEntry(spec, "query_params"),
      NonEmptyEntry(spec, "path_param"), NonEmptyEntry(spec, "body"));
    TailItemsFacts(NonEmptyEntry(spec, "formato_resposta"));
  }

  lemma HeadItemsFacts(m: Option<string>, e: Option<string>)
    requires m.Some? ==> m.value != []
    requires e.Some? ==> e.value != []
    ensures RanksIncrease(HeadItems(m, e)) && RanksWithin(HeadItems(m, e), 0, 1)
  {
  }

  lemma MiddleItemsFacts(metodo: string, query: Option<string>, path: Option<string>, body: Option<string>)
    requires query.Some? ==> query.value != []
    requires path.Some? ==> path.value != []
    requires body.Some? ==> body.value != []
    ensures RanksIncrease(MiddleItems(metodo, query, path, body))
    ensures RanksWithin(MiddleItems(metodo, query, path, body), 2, 4)
  {
    var m := MiddleItems(metodo, query, path, body);
    assert |m| <= 2;
    if |m| == 2 {
      assert SpecRank(m[0]) == 3 && SpecRank(m[1]) == 4;
    }
  }

  lemma TailItemsFacts(f: Option<string>)
    requires f.Some? ==> f.value != []
    ensures RanksIncrease(TailItems(f)) && RanksWithin(TailItems(f), 5, 5)
  {
  }

  lemma IncreasingConcat(a: seq<SpecItem>, b: seq<SpecItem>, la: nat, ha: nat, lb: nat, hb: nat)
    requires RanksIncrease(a) && RanksWithin(a, la, ha)
    requires RanksIncrease(b) && RanksWithin(b, lb, hb)
    requires la <= ha < lb <= hb
    ensures RanksIncrease(a + b) && RanksWithin(a + b, la, hb)
  {
    var c := a + b;
    forall i, j | 0 <= i < j < |c|
      ensures SpecRank(c[i]) < SpecRank(c[j])
    {
      if j < |a| {
        assert c[i] == a[i] && c[j] == a[j];
      } else if i >= |a| {
        assert c[i] == b[i - |a|] && c[j] == b[j - |a|];
      } else {
        assert c[i] == a[i] && c[j] == b[j - |a|];
      }
    }
    forall i | 0 <= i < |c|
      ensures la <= SpecRank(c[i]) <= hb && c[i].v != []
    {
      if i < |a| {
        assert c[i] == a[i];
      } else {
        assert c[i] == b[i - |a|];
      }
    }
  }

  /**
   * The block lists method, endpoint, the method's own fields and the response
   * format in that order, and skips every empty value.
   */
  lemma SpecItemsOrdered(spec: seq<(string, string)>)
    ensures RanksIncrease(SpecItems(spec))
    ensures forall i :: 0 <= i < |SpecItems(spec)| ==> SpecItems(spec)[i].v != []
  {
    SpecPartsFacts(spec);
    IncreasingConcat(SpecHead(spec), SpecMiddle(spec), 0, 1, 2, 4);
    IncreasingConcat(SpecHead(spec) + SpecMiddle(spec), SpecTail(spec), 0, 4, 5, 5);
    assert RanksWithin(SpecItems(spec), 0, 5);
  }

  /** Method, endpoint and response format appear exactly when given. */
  lemma SpecItemsFixedFields(spec: seq<(string, string)>, v: string)
    ensures Method(v) in SpecItems(spec) <==> NonEmptyEntry(spec, "metodo") == Some(v)
    ensures Endpoint(v) in SpecItems(spec) <==> NonEmptyEntry(spec, "endpoint") == Some(v)
    ensures ResponseFormat(v) in SpecItems(spec) <==> NonEmptyEntry(spec, "formato_resposta") == Some(v)
  {
    SpecPartsFacts(spec);
    var h, m, t := SpecHead(spec), SpecMiddle(spec), SpecTail(spec);
    assert SpecItems(spec) == h + m + t;
    assert Method(v) !in m && Method(v) !in t;
    assert Endpoint(v) !in m && Endpoint(v) !in t;
    assert ResponseFormat(v) !in h && ResponseFormat(v) !in m;
  }

  /**
   * Query parameters appear only for GET, a body only for POST, PUT and PATCH,
   * and a path parameter only for PUT, PATCH and DELETE; each when given.
   */
  lemma SpecItemsByMethod(spec: seq<(string, string)>, v: string)
    ensures var metodo := Lookup(spec, "metodo").GetOr("");
      && (QueryParams(v) in SpecItems(spec) <==> metodo == "GET" && NonEmptyEntry(spec, "query_params") == Some(v))
      && (Body(v) in SpecItems(spec) <==>
            (metodo == "POST" || metodo == "PUT" || metodo == "PATCH") && NonEmptyEntry(spec, "body") == Some(v))
      && (PathParam(v) in SpecItems(spec) <==>
            (metodo == "PUT" || metodo == "PATCH" || metodo == "DELETE") && NonEmptyEntry(spec, "path_param") == Some(v))
  {
    SpecPartsFacts(spec);
    var h, m, t := SpecHead(spec), SpecMiddle(spec), SpecTail(spec);
    assert SpecItems(spec) == h + m + t;
    assert QueryParams(v) !in h && QueryParams(v) !in t;
    assert Body(v) !in h && Body(v) !in t;
    assert PathParam(v) !in h && PathParam(v) !in t;
  }

  function SpecLines(items: seq<SpecItem>): (r: seq<string>)
    ensures |r| == |items|
  {
    seq(|items|, k requires 0 <= k < |items| => SpecLine(items[k]))
  }

  lemma SpecLinesAppend(a: seq<SpecItem>, b: seq<SpecItem>)
    ensures SpecLines(a + b) == SpecLines(a) + SpecLines(b)
  {
  }

  lemma SpecLinesSnoc(items: seq<SpecItem>, x: SpecItem)
    ensures SpecLines(items + [x]) == SpecLines(items) + [SpecLine(x)]
  {
  }

  /** The method and endpoint lines, each when given. */
  method HeadParts(m: Option<string>, e: Option<string>) returns (parts: seq<string>)
    ensures parts == SpecLines(HeadItems(m, e))
  {
    ghost var items: seq<SpecItem> := [];
    parts := [];
    if m.Some? {
      SpecLinesSnoc(items, Method(m.value));
      parts, items := parts + [SpecLine(Method(m.value))], items + [Method(m.value)];
    }
    if e.Some? {
      SpecLinesSnoc(items, Endpoint(e.value));
      parts, items := parts + [SpecLine(Endpoint(e.value))], items + [Endpoint(e.value)];
    }
    assert items == HeadItems(m, e);
  }

  /** The lines the method calls for appended, each when given. */
  method AddMiddleParts(parts0: seq<string>, metodo: string, query: Option<string>, path: Option<string>, body: Option<string>)
    returns (parts: seq<string>)
    ensures parts == parts0 + SpecLines(MiddleItems(metodo, query, path, body))
  {
    if metodo == "GET" && query.Some? {
      parts := AddPart(parts0, QueryParams(query.value));
    } else if metodo == "POST" && body.Some? {
      parts := AddPart(parts0, Body(body.value));
    } else if metodo == "PUT" || metodo == "PATCH" {
      parts := AddPathAndBody(parts0, path, body);
    } else if metodo == "DELETE" && path.Some? {
      parts := AddPart(parts0, PathParam(path.value));
    } else {
      parts := parts0;
    }
  }

  /** One line appended. */
  method AddPart(parts0: seq<string>, x: SpecItem) returns (parts: seq<string>)
    ensures parts == parts0 + SpecLines([x])
  {
    SpecLinesSnoc([], x);
    parts := parts0 + [SpecLine(x)];
  }

  /** The path parameter and then the body, each when given, as PUT and PATCH call for. */
  method AddPathAndBody(parts0: seq<string>, path: Option<string>, body: Option<string>) returns (parts: seq<string>)
    ensures parts == parts0 + SpecLines((if path.Some? then [PathParam(path.value)] else []) +
                                        (if body.Some? then [Body(body.value)] else []))
  {
    ghost var items: seq<SpecItem> := [];
    parts := parts0;
    if path.Some? {
      SpecLinesSnoc(items, PathParam(path.value));
      parts, items := parts + [SpecLine(PathParam(path.value))], items + [PathParam(path.value)];
    }
    if body.Some? {
      SpecLinesSnoc(items, Body(body.value));
      parts, items := parts + [SpecLine(Body(body.value))], items + [Body(body.value)];
    }
    assert items == (if path.Some? then [PathParam(path.value)] else []) + (if body.Some? then [Body(body.value)] else []);
  }

  /** The response format line appended, when given. */
  method AddTailParts(parts0: seq<string>, f: Option<string>) returns (parts: seq<string>)
    ensures parts == parts0 + SpecLines(TailItems(f))
  {
    parts := parts0;
    if f.Some? {
      SpecLinesSnoc([], ResponseFormat(f.value));
      parts := parts + [SpecLine(ResponseFormat(f.value))];
    }
  }

  /** The block accumulated by the business builder, line by line. */
  method CollectSpecParts(spec: seq<(string, string)>) returns (parts: seq<string>)
    ensures parts == SpecLines(SpecItems(spec))
  {
    var m := NonEmptyEntry(spec, "metodo");
    var e := NonEmptyEntry(spec, "endpoint");
    parts := HeadParts(m, e);
    var metodo := Lookup(spec, "metodo").GetOr("");
    var query := NonEmptyEntry(spec, "query_params");
    var path := NonEmptyEntry(spec, "path_param");
    var body := NonEmptyEntry(spec, "body");
    parts := AddMiddleParts(parts, metodo, query, path, body);
    var f := NonEmptyEntry(spec, "formato_resposta");
    parts := AddTailParts(parts, f);
    SpecLinesAppend(SpecHead(spec), SpecMiddle(spec));
    SpecLinesAppend(SpecHead(spec) + SpecMiddle(spec), SpecTail(spec));
  }

  function ApiSpecBlock(spec: seq<(string, string)>): string {
    var items := SpecItems(spec);
    if items == [] then "" else BulletList(SpecLines(items))
  }

  /** The `<especificacoes_api>` section, left out when the block is empty. */
  function SpecSection(block: string): string {
    if block == [] then "" else "\n<especificacoes_api>\n" + block + "\n</especificacoes_api>"
  }

  /** The `<dependencias>` section, left out unless dependencies are flagged and given. */
  function DependencySection(hasDependencies: bool, dependencies: string): string {
    if hasDependencies && dependencies != [] then "\n<dependencias>\n" + dependencies + "\n</dependencias>" else ""
  }

  lemma OptionalSections(spec: seq<(string, string)>, hasDependencies: bool, dependencies: string)
    ensures SpecSection(ApiSpecBlock(spec)) == [] <==> SpecItems(spec) == []
    ensures DependencySection(hasDependencies, dependencies) == [] <==> !hasDependencies || dependencies == []
    ensures hasDependencies && dependencies != [] ==> Contains(DependencySection(hasDependencies, dependencies), dependencies)
  {
    BulletListEmpty(SpecLines(SpecItems(spec)));
    ContainsConcat("\n<dependencias>\n", dependencies, "\n</dependencias>");
  }

  // ----------------------------------------------------------------- fix

  /** The non-empty reproduction steps, each with its 1-based position in the original list. */
  function StepEntries(steps: seq<string>): (r: seq<(nat, string)>)
    ensures |r| <= |steps|
    decreases |steps|
  {
    if steps == [] then []
    else
      var n := |steps|;
      StepEntries(steps[..n - 1]) + (if steps[n - 1] != [] then [(n, steps[n - 1])] else [])
  }

  lemma {:induction false} StepEntriesFacts(steps: seq<string>)
    ensures forall e :: e in StepEntries(steps) <==> 1 <= e.0 <= |steps| && steps[e.0 - 1] == e.1 && e.1 != []
    ensures forall i, j :: 0 <= i < j < |StepEntries(steps)| ==> StepEntries(steps)[i].0 < StepEntries(steps)[j].0
    ensures forall i :: 0 <= i < |StepEntries(steps)| ==> StepEntries(steps)[i].0 <= |steps|
    decreases |steps|
  {
    if steps != [] {
      var n := |steps|;
      StepEntriesFacts(steps[..n - 1]);
      forall e
        ensures e in StepEntries(steps) <==> 1 <= e.0 <= n && steps[e.0 - 1] == e.1 && e.1 != []
      {
        if 1 <= e.0 < n {
          assert steps[..n - 1][e.0 - 1] == steps[e.0 - 1];
        }
      }
    }
  }

  function StepLines(entries: seq<(nat, string)>): seq<string> {
    seq(|entries|, k requires 0 <= k < |entries| => NatToString(entries[k].0) + ". " + entries[k].1)
  }

  function StepsBlock(steps: seq<string>): string {
    JoinLines(StepLines(StepEntries(steps)))
  }

  const StepsPlaceholder := "1. [Passo 1]\n2. [Passo 2]\n3. [Passo 3]"

  function StepsOrPlaceholder(steps: seq<string>): string {
    var b := StepsBlock(steps);
    if b == [] then StepsPlaceholder else b
  }

  /** With every step empty the placeholder list is used. */
  lemma StepsPlaceholderWhenEmpty(steps: seq<string>)
    requires forall j :: 0 <= j < |steps| ==> steps[j] == []
    ensures StepsOrPlaceholder(steps) == StepsPlaceholder
  {
    StepEntriesFacts(steps);
  }

  /** Each non-empty step is listed under its 1-based position in the original list. */
  lemma StepsListed(steps: seq<string>, k: nat)
    requires k < |steps| && steps[k] != []
    ensures Contains(StepsOrPlaceholder(steps), NatToString(k + 1) + ". " + steps[k])
  {
    var entries := StepEntries(steps);
    StepEntriesFacts(steps);
    var lines := StepLines(entries);
    assert (k + 1, steps[k]) in entries;
    var i :| 0 <= i < |entries| && entries[i] == (k + 1, steps[k]);
    JoinLinesContains(lines, i);
    assert StepsBlock(steps) != [] by {
      JoinLinesEmpty(lines);
    }
  }

  // The leading character of each evidence text is written apart: the lemmas
  // below tell the texts apart by it.
  const ImagesPlaceholder := "(" + "As imagens de evidência serão inseridas automaticamente aqui)"
  const NoEvidenceNote := "N" + "enhuma evidência adicional fornecida."

  function LogsBlock(logs: string): string {
    "**Logs/Mensagens de Erro:**\n```\n" + logs + "\n```"
  }

  /** The body of the Evidence section of the fix prompt. */
  function EvidenceText(hasImages: bool, logs: string): string {
    (if hasImages then ImagesPlaceholder + "\n\n" else "")
    + (if logs != [] then LogsBlock(logs) else "")
    + (if logs == [] && !hasImages then NoEvidenceNote else "")
  }

  /** The image placeholder leads the evidence text exactly when there are images. */
  lemma EvidenceLeadsWithImages(hasImages: bool, logs: string)
    ensures ImagesPlaceholder <= EvidenceText(hasImages, logs) <==> hasImages
  {
    if hasImages {
      PlaceholderLeads(logs);
    } else {
      NoPlaceholderLead(logs);
    }
  }

  lemma PlaceholderLeads(logs: string)
    ensures ImagesPlaceholder <= EvidenceText(true, logs)
  {
    var tail := if logs != [] then LogsBlock(logs) else "";
    assert EvidenceText(true, logs) == ImagesPlaceholder + "\n\n" + tail;
    ConcatAssoc(ImagesPlaceholder, "\n\n", tail);
    PrefixOfConcat(ImagesPlaceholder, "\n\n" + tail);
  }

  lemma NoPlaceholderLead(logs: string)
    ensures !(ImagesPlaceholder <= EvidenceText(false, logs))
  {
    var r := EvidenceText(false, logs);
    assert ImagesPlaceholder[0] == '(';
    if logs != [] {
      assert r == LogsBlock(logs);
      assert r[0] == '*';
    } else {
      assert r == NoEvidenceNote;
      assert r[0] == 'N';
    }
  }

  /** Given logs are always shown, in their block. */
  lemma EvidenceShowsLogs(hasImages: bool, logs: string)
    requires logs != []
    ensures Contains(EvidenceText(hasImages, logs), LogsBlock(logs))
  {
    var lead := if hasImages then ImagesPlaceholder + "\n\n" else "";
    assert EvidenceText(hasImages, logs) == lead + LogsBlock(logs) + [];
    ContainsConcat(lead, LogsBlock(logs), []);
  }

  /** The "no evidence" note is the whole text exactly when there are neither images nor logs. */
  lemma EvidenceNoteAlone(hasImages: bool, logs: string)
    ensures EvidenceText(hasImages, logs) == NoEvidenceNote <==> !hasImages && logs == []
  {
    var r := EvidenceText(hasImages, logs);
    assert NoEvidenceNote[0] == 'N';
    if hasImages {
      assert r[0] == '(';
    } else if logs != [] {
      assert r[0] == '*';
    }
  }

  function ImageNames(images: seq<Image>): (r: seq<string>)
    ensures |r| == |images|
  {
    seq(|images|, k requires 0 <= k < |images| => images[k].name.GetOr("imagem"))
  }

  const ImagesNotice :=
    "IMPORTANTE: As imagens serão inseridas automaticamente na história depois.\n"
    + "NÃO descreva o conteúdo das imagens na seção de Evidências.\n"
    + "Apenas mencione que há evidências visuais anexadas e foque nos logs/erros textuais se houver."

  function ImagesInfoHead(count: nat): string {
    "\n<imagens_anexadas>\nForam anexadas " + NatToString(count) + " imagem(ns) como evidência do bug:\n"
  }

  const ImagesInfoTail := "\n\n" + ImagesNotice + "\n</imagens_anexadas>\n"

  /** The `<imagens_anexadas>` block: the number of images and their names, or nothing without images. */
  function ImagesInfo(images: seq<Image>): string {
    if images == [] then ""
    else ImagesInfoHead(|images|) + BulletList(ImageNames(images)) + ImagesInfoTail
  }

  /** Every attached image is named in the block, an unnamed one as "imagem". */
  lemma ImagesInfoNames(images: seq<Image>, k: nat)
    requires k < |images|
    ensures Contains(ImagesInfo(images), "- " + images[k].name.GetOr("imagem"))
  {
    BulletListContains(ImageNames(images), k);
    ContainsWithin(ImagesInfoHead(|images|), BulletList(ImageNames(images)), ImagesInfoTail,
      "- " + images[k].name.GetOr("imagem"));
  }

  function AnalysisNote(hasImages: bool): string {
    if hasImages then " e nas imagens anexadas" else ""
  }

  // ---------------------------------------------------------- regeneration

  /** The heading of a regenerated section: the four known names are spelled out, any other passes through. */
  function SectionLabel(name: string): string {
    if name == "criterios" then "Criterios de Aceitacao"
    else if name == "testes" then "Cenarios de Teste Sugeridos"
    else if name == "arquitetura" then "Estrutura Tecnica/Arquitetura"
    else if name == "beneficios" then "Beneficios"
    else name
  }

  /** What iterating `form_data.get('objetivos', [])` yields: the keys of a dictionary, the items of a list. */
  function IteratedObjectives(f: Form): seq<string> {
    if "objetivos" in f && f["objetivos"].Entries? then
      var e := f["objetivos"].entries;
      seq(|e|, k requires 0 <= k < |e| => e[k].0)
    else GetItems(f, "objetivos")
  }

  /** The form's three objective texts do not reach the regeneration prompt: only their keys do. */
  lemma RegenerationListsObjectiveKeys(como: string, quero: string, paraQue: string)
    ensures IteratedObjectives(map["objetivos" := Entries([("como", como), ("quero", quero), ("para_que", paraQue)])])
      == ["como", "quero", "para_que"]
  {
  }

  // ------------------------------------------------------------- builders

  function BusinessSlots(titulo: string, regras: seq<string>, apis: seq<string>, objetivos: seq<(string, string)>,
    complexidade: int, criterios: seq<string>, apiSpecs: seq<(string, string)>, f: Form): seq<string>
  {
    var c := IntToString(complexidade);
    [titulo, BulletList(regras), BulletList(apis), ObjectivesBlock(objetivos), c, BulletList(criterios),
     SpecSection(ApiSpecBlock(apiSpecs)),
     DependencySection(GetFlag(f, "has_dependencies"), GetStr(f, "dependencies", "")), c]
  }

  /** The business prompt; the caller passes `objetivos` as `{}` when it is not a dictionary. */
  function BusinessPrompt(t: Templates, titulo: string, regras: seq<string>, apis: seq<string>,
    objetivos: seq<(string, string)>, complexidade: int, criterios: seq<string>,
    apiSpecs: seq<(string, string)>, f: Form): (r: string)
    requires WellFormed(t)
    ensures Strip(r) == r
  {
    Render(t.business, BusinessSlots(titulo, regras, apis, objetivos, complexidade, criterios, apiSpecs, f))
  }

  function SpikeSlots(f: Form): seq<string> {
    var timebox := IntToString(GetNum(f, "spike_timebox", 8));
    var output := GetStr(f, "spike_output", "");
    [GetStr(f, "titulo", ""), GetStr(f, "spike_pergunta", ""),
     BulletList(NonEmpty(GetItems(f, "spike_alternativas"))), timebox, output,
     BulletList(NonEmpty(GetItems(f, "spike_criterios_sucesso"))), timebox, output]
  }

  function SpikePrompt(t: Templates, f: Form): (r: string)
    requires WellFormed(t)
    ensures Strip(r) == r
  {
    Render(t.spike, SpikeSlots(f))
  }

  function KaizenSlots(f: Form): seq<string> {
    var c := IntToString(GetNum(f, "complexidade", 5));
    [GetStr(f, "titulo", ""), GetStr(f, "kaizen_processo", ""), GetStr(f, "kaizen_situacao_atual", ""),
     GetStr(f, "kaizen_meta", ""), BulletList(NonEmpty(GetItems(f, "kaizen_metricas"))),
     GetStr(f, "kaizen_impacto", ""), c, c]
  }

  function KaizenPrompt(t: Templates, f: Form): (r: string)
    requires WellFormed(t)
    ensures Strip(r) == r
  {
    Render(t.kaizen, KaizenSlots(f))
  }

  function FixSlots(f: Form): seq<string> {
    var titulo := GetStr(f, "titulo", "");
    var esperado := GetStr(f, "fix_comportamento_esperado", "");
    var atual := GetStr(f, "fix_comportamento_atual", "");
    var ambiente := GetStr(f, "fix_ambiente", "");
    var severidade := GetStr(f, "fix_severidade", "");
    var logs := GetStr(f, "fix_logs", "");
    var c := IntToString(GetNum(f, "complexidade", 5));
    var steps := GetItems(f, "fix_passos_reproduzir");
    var images := GetImages(f, "fix_images");
    [titulo, GetStr(f, "fix_descricao", ""), StepsBlock(steps), esperado, atual, ambiente, severidade, logs, c,
     ImagesInfo(images), severidade, ambiente, StepsOrPlaceholder(steps), esperado, atual,
     EvidenceText(images != [], logs), AnalysisNote(images != []), ambiente, ambiente, c]
  }

  function FixPrompt(t: Templates, f: Form): (r: string)
    requires WellFormed(t)
    ensures Strip(r) == r
  {
    Render(t.fix, FixSlots(f))
  }

  function RegenerationSlots(sectionName: string, historia: string, f: Form): seq<string> {
    var heading := SectionLabel(sectionName);
    [heading, historia, GetStr(f, "titulo", ""), BulletList(GetItems(f, "regras_negocio")),
     BulletList(GetItems(f, "apis_servicos")), BulletList(IteratedObjectives(f)),
     IntToString(GetNum(f, "complexidade", 5)), BulletList(GetItems(f, "criterios_aceitacao")),
     heading, heading, heading, heading]
  }

  /** The prompt that asks for one section again; `historia` is the stored story's `historia_gerada`. */
  function RegenerationPrompt(t: Templates, sectionName: string, historia: string, f: Form): (r: string)
    requires WellFormed(t)
    ensures Strip(r) == r
  {
    Render(t.regeneration, RegenerationSlots(sectionName, historia, f))
  }

  /** The regeneration prompt names the section by its label; an unknown name is used as given. */
  lemma RegenerationNamesSection(t: Templates, sectionName: string, historia: string, f: Form)
    requires WellFormed(t) && !AllSpace(t.regeneration[0]) && !AllSpace(t.regeneration[12])
    ensures Contains(RegenerationPrompt(t, sectionName, historia, f), SectionLabel(sectionName))
    ensures Contains(RegenerationPrompt(t, sectionName, historia, f), historia)
    ensures sectionName == "testes" ==> SectionLabel(sectionName) == "Cenarios de Teste Sugeridos"
    ensures sectionName !in {"criterios", "testes", "arquitetura", "beneficios"} ==> SectionLabel(sectionName) == sectionName
  {
    RenderKeepsSlots(t.regeneration, RegenerationSlots(sectionName, historia, f), 0);
    RenderKeepsSlots(t.regeneration, RegenerationSlots(sectionName, historia, f), 1);
  }
}
