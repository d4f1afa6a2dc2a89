// The story record: field defaults, the validators run on construction,
// the flat dictionary form and the three exports.

module Stories {
  import opened Base
  import opened Text

  const MaxTitleLength := 100
  const MinComplexity := 1
  const MaxComplexity := 21
  const DefaultComplexity := 5
  const DefaultValueArea := "Business"

  /** The `objetivos` dictionary, in insertion order, with text values. */
  type Objectives = seq<(string, string)>

  datatype Story = Story(
    id: string,
    titulo: string,
    regrasNegocio: seq<string>,
    apisServicos: seq<string>,
    objetivos: Objectives,
    complexidade: int,
    criteriosAceitacao: seq<string>,
    historiaGerada: string,
    createdAt: string,
    valueArea: string)

  /** The keyword arguments given to the constructor; `None` means "not passed". */
  datatype StoryArgs = StoryArgs(
    titulo: string,
    regrasNegocio: Option<seq<string>>,
    apisServicos: Option<seq<string>>,
    objetivos: Option<Objectives>,
    complexidade: Option<int>,
    criteriosAceitacao: Option<seq<string>>,
    historiaGerada: Option<string>,
    valueArea: Option<string>)

  /** The validation failures construction can report, one per violated constraint. */
  datatype FieldError =
    | TitleTooShort
    | TitleTooLong
    | TitleBlank
    | ComplexityTooLow
    | ComplexityTooHigh

  /** Items that are non-empty and carry no surrounding whitespace. */
  predicate CleanItems(items: seq<string>) {
    forall k :: 0 <= k < |items| ==> items[k] != [] && Strip(items[k]) == items[k]
  }

  /** What every constructed story satisfies. */
  predicate ValidStory(s: Story) {
    && 1 <= |s.titulo| <= MaxTitleLength
    && Strip(s.titulo) == s.titulo
    && MinComplexity <= s.complexidade <= MaxComplexity
    && CleanItems(s.regrasNegocio)
    && CleanItems(s.apisServicos)
    && CleanItems(s.criteriosAceitacao)
  }

  /** The list validator: surrounding whitespace removed, blank items dropped, order kept. */
  function RemoveEmptyStrings(items: seq<string>): (r: seq<string>)
    ensures CleanItems(r)
    ensures forall x :: x in r <==> x != [] && exists k :: 0 <= k < |items| && Strip(items[k]) == x
  {
    StrippedNonBlankClean(items);
    forall x ensures x in StrippedNonBlank(items) <==> x != [] && exists k :: 0 <= k < |items| && Strip(items[k]) == x {
      StrippedNonBlankMembership(items, x);
    }
    StrippedNonBlank(items)
  }

  /** Normalising an already normalised list changes nothing. */
  lemma RemoveEmptyStringsIdempotent(items: seq<string>)
    ensures RemoveEmptyStrings(RemoveEmptyStrings(items)) == RemoveEmptyStrings(items)
  {
    StrippedNonBlankIdempotent(items);
  }

  /** The title validator: a blank title is refused, any other is stored stripped. */
  function ValidateTitulo(v: string): (r: Result<string, FieldError>)
    ensures r.Err? <==> AllSpace(v)
    ensures r.Err? ==> r.error == TitleBlank
    ensures r.Ok? ==> r.value != [] && Strip(r.value) == r.value && Contains(v, r.value)
    ensures r.Ok? ==> !IsSpace(r.value[0]) && !IsSpace(r.value[|r.value| - 1])
  {
    StripEmptyIffAllSpace(v);
    StripIdempotent(v);
    StripInside(v);
    if Strip(v) == [] then Err(TitleBlank) else Ok(Strip(v))
  }

  /** Title errors: the length bounds apply to the raw input, before the validator strips it. */
  function TitleErrors(t: string): seq<FieldError> {
    if |t| < 1 then [TitleTooShort]
    else if |t| > MaxTitleLength then [TitleTooLong]
    else if ValidateTitulo(t).Err? then [TitleBlank]
    else []
  }

  function ComplexityErrors(c: int): seq<FieldError> {
    if c < MinComplexity then [ComplexityTooLow]
    else if c > MaxComplexity then [ComplexityTooHigh]
    else []
  }

  /**
   * Construction of a story: defaults fill what was not passed, every field is
   * validated and all failures are reported together. `id` and `createdAt` are
   * the values of the identifier and clock factories.
   */
  function NewStory(id: string, createdAt: string, args: StoryArgs): (r: Result<Story, seq<FieldError>>)
    ensures r.Ok? <==>
      && 1 <= |args.titulo| <= MaxTitleLength
      && !AllSpace(args.titulo)
      && MinComplexity <= args.complexidade.GetOr(DefaultComplexity) <= MaxComplexity
    ensures r.Ok? ==> ValidStory(r.value)
    ensures r.Ok? ==> r.value.id == id && r.value.createdAt == createdAt
    ensures r.Ok? ==> r.value.titulo == Strip(args.titulo)
    ensures r.Ok? ==> r.value.complexidade == args.complexidade.GetOr(DefaultComplexity)
    ensures r.Ok? ==> r.value.valueArea == args.valueArea.GetOr(DefaultValueArea)
    ensures r.Ok? ==> r.value.historiaGerada == args.historiaGerada.GetOr("")
    ensures r.Ok? ==> r.value.objetivos == args.objetivos.GetOr([])
    ensures r.Ok? ==> r.value.regrasNegocio == RemoveEmptyStrings(args.regrasNegocio.GetOr([]))
    ensures r.Ok? ==> r.value.apisServicos == RemoveEmptyStrings(args.apisServicos.GetOr([]))
    ensures r.Ok? ==> r.value.criteriosAceitacao == RemoveEmptyStrings(args.criteriosAceitacao.GetOr([]))
    ensures r.Err? ==> r.error != []
    ensures r.Err? ==> (TitleTooShort in r.error <==> args.titulo == [])
    ensures r.Err? ==> (TitleTooLong in r.error <==> |args.titulo| > MaxTitleLength)
    ensures r.Err? ==> (TitleBlank in r.error <==> 1 <= |args.titulo| <= MaxTitleLength && AllSpace(args.titulo))
    ensures r.Err? ==> (ComplexityTooLow in r.error <==> args.complexidade.GetOr(DefaultComplexity) < MinComplexity)
    ensures r.Err? ==> (ComplexityTooHigh in r.error <==> args.complexidade.GetOr(DefaultComplexity) > MaxComplexity)
  {
    var c := args.complexidade.GetOr(DefaultComplexity);
    var errors := TitleErrors(args.titulo) + ComplexityErrors(c);
    if errors != [] then Err(errors)
    else
      var t := ValidateTitulo(args.titulo).value;
      Ok(Story(id, t,
        RemoveEmptyStrings(args.regrasNegocio.GetOr([])),
        RemoveEmptyStrings(args.apisServicos.GetOr([])),
        args.objetivos.GetOr([]),
        c,
        RemoveEmptyStrings(args.criteriosAceitacao.GetOr([])),
        args.historiaGerada.GetOr(""),
        createdAt,
        args.valueArea.GetOr(DefaultValueArea)))
  }

  /** A title passed with every other field left out gives the documented defaults. */
  lemma DefaultsWhenOmitted(id: string, createdAt: string, t: string)
    requires 1 <= |t| <= MaxTitleLength && !AllSpace(t)
    ensures var r := NewStory(id, createdAt, StoryArgs(t, None, None, None, None, None, None, None));
      && r.Ok?
      && r.value.complexidade == 5
      && r.value.valueArea == "Business"
      && r.value.historiaGerada == ""
      && r.value.regrasNegocio == [] && r.value.apisServicos == [] && r.value.criteriosAceitacao == []
      && r.value.objetivos == []
  {
  }

  // ------------------------------------------------------- dictionary form

  /** A value of the flat dictionary. */
  datatype Value =
    | VStr(str: string)
    | VInt(num: int)
    | VList(items: seq<string>)
    | VDict(entries: seq<(string, string)>)

  type StoryDict = map<string, Value>

  const StoryKeys: set<string> := {
    "id", "titulo", "regras_negocio", "apis_servicos", "objetivos",
    "complexidade", "criterios_aceitacao", "historia_gerada", "created_at", "value_area" }

  /** The flat dictionary form; `createdAt` already holds the ISO rendering of the timestamp. */
  function ToDict(s: Story): (d: StoryDict)
    ensures d.Keys == StoryKeys
  {
    map[
      "id" := VStr(s.id),
      "titulo" := VStr(s.titulo),
      "regras_negocio" := VList(s.regrasNegocio),
      "apis_servicos" := VList(s.apisServicos),
      "objetivos" := VDict(s.objetivos),
      "complexidade" := VInt(s.complexidade),
      "criterios_aceitacao" := VList(s.criteriosAceitacao),
      "historia_gerada" := VStr(s.historiaGerada),
      "created_at" := VStr(s.createdAt),
      "value_area" := VStr(s.valueArea)]
  }

  /** Reading a story back from its dictionary form, when every key holds a value of the right kind. */
  function FromDict(d: StoryDict): Option<Story> {
    if && "id" in d && d["id"].VStr?
       && "titulo" in d && d["titulo"].VStr?
       && "regras_negocio" in d && d["regras_negocio"].VList?
       && "apis_servicos" in d && d["apis_servicos"].VList?
       && "objetivos" in d && d["objetivos"].VDict?
       && "complexidade" in d && d["complexidade"].VInt?
       && "criterios_aceitacao" in d && d["criterios_aceitacao"].VList?
       && "historia_gerada" in d && d["historia_gerada"].VStr?
       && "created_at" in d && d["created_at"].VStr?
       && "value_area" in d && d["value_area"].VStr?
    then Some(Story(
      d["id"].str, d["titulo"].str, d["regras_negocio"].items, d["apis_servicos"].items,
      d["objetivos"].entries, d["complexidade"].num, d["criterios_aceitacao"].items,
      d["historia_gerada"].str, d["created_at"].str, d["value_area"].str))
    else None
  }

  /** The dictionary form loses nothing: every field can be read back. */
  lemma DictRoundTrip(s: Story)
    ensures FromDict(ToDict(s)) == Some(s)
  {
  }

  /** A dictionary with exactly the ten keys is the dictionary form of the story read from it. */
  lemma DictFaithful(d: StoryDict)
    requires d.Keys == StoryKeys
    requires FromDict(d).Some?
    ensures ToDict(FromDict(d).value) == d
  {
    var e := ToDict(FromDict(d).value);
    assert e.Keys == d.Keys;
    forall k | k in d ensures e[k] == d[k] {
    }
  }

  /** The JSON export is the dictionary form. */
  function ToJsonExport(s: Story): (d: StoryDict)
    ensures d == ToDict(s)
    ensures FromDict(d) == Some(s)
  {
    ToDict(s)
  }

  /** The Markdown export is the generated document, untouched: the text the dictionary form stores. */
  function ToMarkdownExport(s: Story): (r: string)
    ensures ToDict(s)["historia_gerada"] == VStr(r)
  {
    s.historiaGerada
  }

  // ----------------------------------------------------------- text export

  /** A character of one of the ranges the emoji pattern lists. */
  predicate IsEmoji(c: char) {
    || ('\U{1F600}' <= c <= '\U{1F64F}')
    || ('\U{1F300}' <= c <= '\U{1F5FF}')
    || ('\U{1F680}' <= c <= '\U{1F6FF}')
    || ('\U{1F1E0}' <= c <= '\U{1F1FF}')
    || ('\U{2702}' <= c <= '\U{27B0}')
    || ('\U{24C2}' <= c <= '\U{1F251}')
  }

  /** Removing every run of emoji characters removes every such character. */
  function RemoveEmoji(s: string): (r: string)
    ensures |r| <= |s|
    ensures forall k :: 0 <= k < |r| ==> !IsEmoji(r[k])
  {
    if s == [] then []
    else (if IsEmoji(s[0]) then [] else [s[0]]) + RemoveEmoji(s[1..])
  }

  /** Exactly the characters of the text that are not emoji survive. */
  lemma {:induction false} RemoveEmojiKeepsOthers(s: string)
    ensures forall x :: x in RemoveEmoji(s) <==> x in s && !IsEmoji(x)
  {
    if s != [] {
      RemoveEmojiKeepsOthers(s[1..]);
      assert forall x :: x in s <==> x == s[0] || x in s[1..];
    }
  }

  /** Emoji removal works piece by piece, so the kept characters stay in order. */
  lemma {:induction false} RemoveEmojiAppend(a: string, b: string)
    ensures RemoveEmoji(a + b) == RemoveEmoji(a) + RemoveEmoji(b)
  {
    if a == [] {
      assert a + b == b;
    } else {
      assert (a + b)[1..] == a[1..] + b;
      RemoveEmojiAppend(a[1..], b);
    }
  }

  /** Each character is dropped exactly when it is an emoji, wherever it stands. */
  lemma RemoveEmojiAt(a: string, c: char, b: string)
    ensures RemoveEmoji(a + [c] + b) == RemoveEmoji(a) + (if IsEmoji(c) then [] else [c]) + RemoveEmoji(b)
  {
    var t := [c] + b;
    assert t[1..] == b;
    assert RemoveEmoji(t) == (if IsEmoji(c) then [] else [c]) + RemoveEmoji(b);
    RemoveEmojiAppend(a, t);
    assert a + [c] + b == a + t;
  }

  lemma {:induction false} RemoveEmojiKeepsPlain(s: string)
    requires forall k :: 0 <= k < |s| ==> !IsEmoji(s[k])
    ensures RemoveEmoji(s) == s
  {
    if s != [] {
      RemoveEmojiKeepsPlain(s[1..]);
    }
  }

  /** The length of the run of `#` characters starting at `i`. */
  function HashRun(s: string, i: nat): (n: nat)
    requires i <= |s|
    ensures i + n <= |s|
    ensures forall k :: i <= k < i + n ==> s[k] == '#'
    ensures i + n == |s| || s[i + n] != '#'
    decreases |s| - i
  {
    if i < |s| && s[i] == '#' then 1 + HashRun(s, i + 1) else 0
  }

  /**
   * The substitution of `#{1,6}\s` by nothing, scanning from `i`: a heading
   * marker is one to six `#` followed by whitespace; a longer run cannot match
   * at its start, because the seventh `#` is not whitespace.
   */
  function RemoveHeaders(s: string, i: nat): (r: string)
    requires i <= |s|
    ensures |r| <= |s| - i
    ensures CharsIn(r, s)
    decreases |s| - i
  {
    if i == |s| then []
    else
      var n := HashRun(s, i);
      if 1 <= n <= 6 && i + n < |s| && IsSpace(s[i + n]) then RemoveHeaders(s, i + n + 1)
      else [s[i]] + RemoveHeaders(s, i + 1)
  }

  lemma {:induction false} RemoveHeadersKeepsPlain(s: string, i: nat)
    requires i <= |s|
    requires forall k :: i <= k < |s| ==> s[k] != '#'
    ensures RemoveHeaders(s, i) == s[i..]
    decreases |s| - i
  {
    if i < |s| {
      RemoveHeadersKeepsPlain(s, i + 1);
    }
  }

  /** Every character of `r` occurs in `s`. */
  predicate CharsIn(r: string, s: string) {
    forall x :: x in r ==> x in s
  }

  lemma CharsInAppend(a: string, b: string, s: string)
    requires CharsIn(a, s) && CharsIn(b, s)
    ensures CharsIn(a + b, s)
  {
  }

  lemma SliceChars(s: string, lo: nat, hi: nat)
    requires lo <= hi <= |s|
    ensures CharsIn(s[lo..hi], s)
  {
    assert s == s[..lo] + s[lo..hi] + s[hi..];
  }

  /** A heading marker, one to six `#` and a whitespace character, is removed from the line it opens. */
  lemma HeadingRemoved(h: string, c: char, w: string)
    requires 1 <= |h| <= 6 && forall k :: 0 <= k < |h| ==> h[k] == '#'
    requires IsSpace(c)
    requires forall k :: 0 <= k < |w| ==> w[k] != '#'
    ensures RemoveHeaders(h + [c] + w, 0) == w
  {
    var s := h + [c] + w;
    assert s[|h|] == c;
    assert s[|h| + 1..] == w;
    HeadingRemovedAt(s, |h|);
  }

  lemma HeadingRemovedAt(s: string, n: nat)
    requires 1 <= n <= 6 && n < |s| && IsSpace(s[n])
    requires forall k :: 0 <= k < n ==> s[k] == '#'
    requires forall k :: n < k < |s| ==> s[k] != '#'
    ensures RemoveHeaders(s, 0) == s[n + 1..]
  {
    HashRunEnds(s, 0, n);
    RemoveHeadersKeepsPlain(s, n + 1);
  }

  lemma {:induction false} HashRunEnds(s: string, i: nat, n: nat)
    requires i + n < |s| && s[i + n] != '#'
    requires forall k :: i <= k < i + n ==> s[k] == '#'
    ensures HashRun(s, i) == n
    decreases n
  {
    if n > 0 {
      HashRunEnds(s, i + 1, n - 1);
    }
  }

  predicate StartsAt(s: string, delim: string, k: nat) {
    k + |delim| <= |s| && s[k..k + |delim|] == delim
  }

  /**
   * The lazy group `(.+?)` followed by `delim`: the first position `j >= k`
   * where `delim` starts, provided no newline lies before it.
   */
  function LazyClose(s: string, k: nat, delim: string): (r: Option<nat>)
    requires k <= |s|
    ensures r.Some? ==> k <= r.value && StartsAt(s, delim, r.value)
    decreases |s| - k
  {
    if StartsAt(s, delim, k) then Some(k)
    else if k == |s| || s[k] == '\n' then None
    else LazyClose(s, k + 1, delim)
  }

  /**
   * The substitution of `delim(.+?)delim` by the group, scanning from `i`:
   * matches do not overlap and each keeps the text between the delimiters.
   */
  function Unwrap(s: string, delim: string, i: nat): (r: string)
    requires delim != []
    requires i <= |s|
    ensures |r| <= |s| - i
    ensures CharsIn(r, s)
    decreases |s| - i
  {
    if i == |s| then []
    else match EmphasisAt(s, delim, i)
      case Some(j) =>
        var inner, rest := s[i + |delim|..j], Unwrap(s, delim, j + |delim|);
        SliceChars(s, i + |delim|, j);
        CharsInAppend(inner, rest, s);
        inner + rest
      case None =>
        var rest := Unwrap(s, delim, i + 1);
        CharsInAppend([s[i]], rest, s);
        [s[i]] + rest
  }

  /** Where the closing delimiter of an emphasis opened at `i` starts, if one is. */
  function EmphasisAt(s: string, delim: string, i: nat): (r: Option<nat>)
    requires i <= |s|
    ensures r.Some? ==> i + |delim| < r.value && r.value + |delim| <= |s|
  {
    var c := i + |delim|;
    if StartsAt(s, delim, i) && c < |s| && s[c] != '\n' then LazyClose(s, c + 1, delim) else None
  }

  lemma {:induction false} UnwrapKeepsPlain(s: string, delim: string, i: nat)
    requires delim != []
    requires i <= |s|
    requires forall k :: i <= k < |s| ==> s[k] != delim[0]
    ensures Unwrap(s, delim, i) == s[i..]
    decreases |s| - i
  {
    if i < |s| {
      UnwrapKeepsPlain(s, delim, i + 1);
    }
  }

  /** The plain-text export: emoji, heading markers, bold and italic removed, then stripped. */
  function ToTextExport(s: Story): (r: string)
    ensures |r| <= |s.historiaGerada|
    ensures r == [] || (!IsSpace(r[0]) && !IsSpace(r[|r| - 1]))
    ensures Strip(r) == r
    ensures forall k :: 0 <= k < |r| ==> !IsEmoji(r[k])
  {
    var t0 := RemoveEmoji(s.historiaGerada);
    var t1 := RemoveHeaders(t0, 0);
    var t2 := Unwrap(t1, "**", 0);
    var t3 := Unwrap(t2, "*", 0);
    StripIdempotent(t3);
    StripInside(t3);
    assert forall x :: x in t0 ==> !IsEmoji(x);
    assert forall k :: 0 <= k < |t3| ==> !IsEmoji(t3[k]) by {
      forall k | 0 <= k < |t3| ensures !IsEmoji(t3[k]) {
        assert t3[k] in t3;
      }
    }
    CharsOfInner(t3, Strip(t3));
    Strip(t3)
  }

  /** The characters of a text contained in another are characters of that other. */
  lemma CharsOfInner(outer: string, inner: string)
    requires Contains(outer, inner)
    ensures forall k :: 0 <= k < |inner| ==> inner[k] in outer
  {
    var i: nat :| i <= |outer| && OccursAt(outer, inner, i);
    forall k | 0 <= k < |inner| ensures inner[k] in outer {
      assert inner[k] == outer[i..i + |inner|][k] == outer[i + k];
    }
  }

  /** A document without emoji, `#` or `*` is exported as its stripped self. */
  lemma TextExportOfPlain(s: Story)
    requires forall k :: 0 <= k < |s.historiaGerada| ==>
      !IsEmoji(s.historiaGerada[k]) && s.historiaGerada[k] != '#' && s.historiaGerada[k] != '*'
    ensures ToTextExport(s) == Strip(s.historiaGerada)
  {
    var h := s.historiaGerada;
    RemoveEmojiKeepsPlain(h);
    RemoveHeadersKeepsPlain(h, 0);
    UnwrapKeepsPlain(h, "**", 0);
    UnwrapKeepsPlain(h, "*", 0);
  }

  /** Bold markers around a word on one line are removed and the word kept. */
  lemma BoldUnwrapped(w: string)
    requires w != [] && forall k :: 0 <= k < |w| ==> w[k] != '*' && w[k] != '\n'
    ensures Unwrap("**" + w + "**", "**", 0) == w
  {
    var s := "**" + w + "**";
    var j := 2 + |w|;
    assert |s| == j + 2;
    BoldCloses(w);
    assert StartsAt(s, "**", 0) by {
      assert s[0..2] == "**";
    }
    assert s[2] == w[0] && s[2] != '\n';
    assert LazyClose(s, 0 + |"**"| + 1, "**") == Some(j) by {
      assert 0 + |"**"| + 1 == 3;
    }
    UnwrapMatch(s, "**", 0, j);
    assert Unwrap(s, "**", j + 2) == [];
    assert s[2..j] == w;
  }

  /** Italic markers around a word on one line are removed and the word kept. */
  lemma ItalicUnwrapped(w: string)
    requires w != [] && forall k :: 0 <= k < |w| ==> w[k] != '*' && w[k] != '\n'
    ensures Unwrap("*" + w + "*", "*", 0) == w
  {
    var s := "*" + w + "*";
    var j := 1 + |w|;
    assert |s| == j + 1;
    ItalicCloses(w);
    assert StartsAt(s, "*", 0) by {
      assert s[0..1] == "*";
    }
    assert s[1] == w[0] && s[1] != '\n';
    UnwrapMatch(s, "*", 0, j);
    assert Unwrap(s, "*", j + 1) == [];
    assert s[1..j] == w;
  }

  lemma ItalicCloses(w: string)
    requires w != [] && forall k :: 0 <= k < |w| ==> w[k] != '*' && w[k] != '\n'
    ensures LazyClose("*" + w + "*", 2, "*") == Some(1 + |w|)
  {
    var s := "*" + w + "*";
    var j := 1 + |w|;
    assert StartsAt(s, "*", j) by {
      assert s[j..j + 1] == "*";
    }
    forall p | 2 <= p < j
      ensures s[p] != '\n' && !StartsAt(s, "*", p)
    {
      assert s[p] == w[p - 1];
      assert s[p..p + 1][0] == s[p];
    }
    LazyCloseFinds(s, 2, j, "*");
  }

  /** A bold word on one line exports as the word. */
  lemma TextExportUnbolds(s: Story, w: string)
    requires s.historiaGerada == "**" + w + "**"
    requires w != [] && Strip(w) == w
    requires forall k :: 0 <= k < |w| ==> w[k] != '*' && w[k] != '\n' && w[k] != '#' && !IsEmoji(w[k])
    ensures ToTextExport(s) == w
  {
    var h := s.historiaGerada;
    assert forall k :: 0 <= k < |h| ==> !IsEmoji(h[k]) && h[k] != '#' by {
      forall k | 0 <= k < |h| ensures !IsEmoji(h[k]) && h[k] != '#' {
        if 2 <= k < 2 + |w| {
          assert h[k] == w[k - 2];
        }
      }
    }
    RemoveEmojiKeepsPlain(h);
    RemoveHeadersKeepsPlain(h, 0);
    BoldUnwrapped(w);
    UnwrapKeepsPlain(w, "*", 0);
  }

  /** A heading line exports as its title, the marker removed. */
  lemma TextExportDropsHeading(s: Story, h: string, c: char, w: string)
    requires s.historiaGerada == h + [c] + w
    requires 1 <= |h| <= 6 && forall k :: 0 <= k < |h| ==> h[k] == '#'
    requires IsSpace(c) && !IsEmoji(c)
    requires forall k :: 0 <= k < |w| ==> w[k] != '*' && w[k] != '#' && !IsEmoji(w[k])
    ensures ToTextExport(s) == Strip(w)
  {
    var d := s.historiaGerada;
    assert forall k :: 0 <= k < |d| ==> !IsEmoji(d[k]) by {
      forall k | 0 <= k < |d| ensures !IsEmoji(d[k]) {
        if k < |h| {
          assert d[k] == h[k];
        } else if k > |h| {
          assert d[k] == w[k - |h| - 1];
        }
      }
    }
    RemoveEmojiKeepsPlain(d);
    HeadingRemoved(h, c, w);
    UnwrapKeepsPlain(w, "**", 0);
    UnwrapKeepsPlain(w, "*", 0);
  }

  lemma BoldCloses(w: string)
    requires w != [] && forall k :: 0 <= k < |w| ==> w[k] != '*' && w[k] != '\n'
    ensures LazyClose("**" + w + "**", 3, "**") == Some(2 + |w|)
  {
    var s := "**" + w + "**";
    var j := 2 + |w|;
    assert StartsAt(s, "**", j) by {
      assert s[j..j + 2] == "**";
    }
    forall p | 3 <= p < j
      ensures s[p] != '\n' && !StartsAt(s, "**", p)
    {
      assert s[p] == w[p - 2];
      if p + 2 <= |s| {
        assert s[p..p + 2][0] == s[p];
      }
    }
    LazyCloseFinds(s, 3, j, "**");
  }

  lemma UnwrapMatch(s: string, delim: string, i: nat, j: nat)
    requires delim != [] && i + |delim| < |s|
    requires StartsAt(s, delim, i) && s[i + |delim|] != '\n'
    requires LazyClose(s, i + |delim| + 1, delim) == Some(j)
    ensures Unwrap(s, delim, i) == s[i + |delim|..j] + Unwrap(s, delim, j + |delim|)
  {
    assert EmphasisAt(s, delim, i) == Some(j);
  }

  lemma {:induction false} LazyCloseFinds(s: string, k: nat, j: nat, delim: string)
    requires k <= j <= |s|
    requires StartsAt(s, delim, j)
    requires forall p :: k <= p < j ==> s[p] != '\n' && !StartsAt(s, delim, p)
    ensures LazyClose(s, k, delim) == Some(j)
    decreases j - k
  {
    if k < j {
      LazyCloseFinds(s, k + 1, j, delim);
    }
  }
}
