// Splicing attached evidence images into a generated bug-report document:
// the Markdown block built from the images, the heading searches (case
// insensitive) and the insertion with its fallback order.

module Splice {
  import opened Base
  import opened Text

  /** An attached image record; a key missing from the record is `None`. */
  datatype Image = Image(name: Option<string>, mime: Option<string>, data: Option<string>)

  const ImagesHeader := "\n\n**Imagens Anexadas:**\n\n"
  const DefaultMime := "image/png"

  /** The display name of the image at 0-based position `i`. */
  function ImageName(i: nat, img: Image): string {
    img.name.GetOr("Evidência " + NatToString(i + 1))
  }

  predicate HasData(img: Image) {
    img.data.GetOr("") != []
  }

  /** The caption line `**name:**` with its blank line. */
  function Caption(name: string): string {
    "**" + name + ":**\n\n"
  }

  /** The inline reference `![name](data:type;base64,data)` with its blank line. */
  function ImageLine(name: string, mime: string, data: string): string {
    "![" + name + "](data:" + mime + ";base64," + data + ")\n\n"
  }

  /** The caption and reference written for one image. */
  function ImageBlock(i: nat, img: Image): string {
    Caption(ImageName(i, img)) + ImageLine(ImageName(i, img), img.mime.GetOr(DefaultMime), img.data.GetOr(""))
  }

  /** The blocks of the first `n` images, skipping those without data. */
  function Blocks(images: seq<Image>, n: nat): string
    requires n <= |images|
  {
    if n == 0 then []
    else Blocks(images, n - 1) + (if HasData(images[n - 1]) then ImageBlock(n - 1, images[n - 1]) else [])
  }

  function ImagesMarkdown(images: seq<Image>): string {
    ImagesHeader + Blocks(images, |images|)
  }

  /** The blocks of a shorter prefix of the list are a prefix of the blocks of a longer one. */
  lemma {:induction false} BlocksPrefix(images: seq<Image>, m: nat, n: nat)
    requires m <= n <= |images|
    ensures Blocks(images, m) <= Blocks(images, n)
    decreases n - m
  {
    if m < n {
      BlocksPrefix(images, m, n - 1);
    }
  }

  /** Images without data contribute nothing. */
  lemma {:induction false} BlocksWithoutData(images: seq<Image>, n: nat)
    requires n <= |images|
    requires forall k :: 0 <= k < n ==> !HasData(images[k])
    ensures Blocks(images, n) == []
  {
    if n > 0 {
      BlocksWithoutData(images, n - 1);
    }
  }

  lemma Regroup(h: string, pre: string, bi: string, mid: string, bj: string, post: string)
    ensures h + (pre + bi + mid + bj + post) == (h + pre) + bi + mid + bj + post
  {
  }

  lemma PrefixSplit(u: string, v: string)
    requires u <= v
    ensures v == u + v[|u|..]
  {
    assert v[..|u|] == u;
  }

  /**
   * The block starts with the header and carries the blocks of the images
   * with data in list order: the block of an earlier image comes before the
   * block of a later one.
   */
  lemma ImagesMarkdownOrder(images: seq<Image>, i: nat, j: nat)
    requires i < j < |images| && HasData(images[i]) && HasData(images[j])
    ensures ImagesHeader <= ImagesMarkdown(images)
    ensures exists a, b, c :: ImagesMarkdown(images) == a + ImageBlock(i, images[i]) + b + ImageBlock(j, images[j]) + c
  {
    var pre := Blocks(images, i);
    var bi := ImageBlock(i, images[i]);
    var bj := ImageBlock(j, images[j]);
    var upToI := Blocks(images, i + 1);
    var upToJ := Blocks(images, j + 1);
    var all := Blocks(images, |images|);
    assert upToI == pre + bi;
    BlocksPrefix(images, i + 1, j);
    PrefixSplit(upToI, Blocks(images, j));
    var mid := Blocks(images, j)[|upToI|..];
    assert upToJ == Blocks(images, j) + bj;
    BlocksPrefix(images, j + 1, |images|);
    PrefixSplit(upToJ, all);
    var post := all[|upToJ|..];
    assert all == pre + bi + mid + bj + post;
    assert ImagesMarkdown(images) == ImagesHeader + all;
    Regroup(ImagesHeader, pre, bi, mid, bj, post);
  }

  /** The loop that builds the image block. */
  method BuildImagesMarkdown(images: seq<Image>) returns (md: string)
    ensures md == ImagesMarkdown(images)
  {
    md := ImagesHeader;
    var i := 0;
    while i < |images|
      invariant 0 <= i <= |images|
      invariant md == ImagesHeader + Blocks(images, i)
    {
      var img := images[i];
      var name := img.name.GetOr("Evidência " + NatToString(i + 1));
      var mime := img.mime.GetOr(DefaultMime);
      var data := img.data.GetOr("");
      ghost var before := md;
      if data != [] {
        md := md + Caption(name);
        md := md + ImageLine(name, mime, data);
        ConcatAssoc(before, Caption(name), ImageLine(name, mime, data));
      }
      assert Blocks(images, i + 1) == Blocks(images, i) + (if HasData(img) then ImageBlock(i, img) else []);
      ConcatAssoc(ImagesHeader, Blocks(images, i), if HasData(img) then ImageBlock(i, img) else []);
      i := i + 1;
    }
  }

  // ------------------------------------------------------------ patterns

  /** A pattern: at each position, the characters accepted there (compared ignoring case). */
  type Pattern = seq<seq<char>>

  function Lit(s: string): Pattern {
    seq(|s|, k requires 0 <= k < |s| => [s[k]])
  }

  predicate ClassHas(cls: seq<char>, c: char) {
    cls != [] && (SameIgnoringCase(c, cls[0]) || ClassHas(cls[1..], c))
  }

  predicate PatternAt(text: string, pat: Pattern, i: nat)
    decreases |pat|
  {
    pat == [] || (i < |text| && ClassHas(pat[0], text[i]) && PatternAt(text, pat[1..], i + 1))
  }

  /** `### Evid[êe]ncia`, the fixed part of the evidence heading. */
  const EvidencePrefix: Pattern := Lit("### Evid") + ["êe"] + Lit("ncia")
  /** `### An[áa]lise T[ée]cnica` */
  const AnalysisHeading: Pattern := Lit("### An") + ["áa"] + Lit("lise T") + ["ée"] + Lit("cnica")
  /** `### Complexidade` */
  const ComplexityHeading: Pattern := Lit("### Complexidade")

  /** The first position at or after `i` where `pat` matches. */
  function FindPattern(text: string, pat: Pattern, i: nat): (r: Option<nat>)
    requires i <= |text|
    ensures r.Some? ==> i <= r.value <= |text| && PatternAt(text, pat, r.value)
    decreases |text| - i
  {
    if PatternAt(text, pat, i) then Some(i)
    else if i == |text| then None
    else FindPattern(text, pat, i + 1)
  }

  lemma {:induction false} FindPatternFirst(text: string, pat: Pattern, i: nat)
    requires i <= |text|
    ensures FindPattern(text, pat, i).Some? ==>
      forall j :: i <= j < FindPattern(text, pat, i).value ==> !PatternAt(text, pat, j)
    ensures FindPattern(text, pat, i).None? ==> forall j :: i <= j <= |text| ==> !PatternAt(text, pat, j)
    decreases |text| - i
  {
    if !PatternAt(text, pat, i) && i < |text| {
      FindPatternFirst(text, pat, i + 1);
    }
  }

  /**
   * The `\s*\n` tail of the evidence heading, from `k`: the greedy run of
   * whitespace gives back characters until it ends on a newline, so the match
   * ends just after the last newline of the run. `last` is the end found so far.
   */
  function NewlineRunEnd(text: string, k: nat, last: Option<nat>): (r: Option<nat>)
    requires k <= |text|
    requires last.Some? ==> 0 < last.value <= k && text[last.value - 1] == '\n'
    ensures r.Some? ==> 0 < r.value <= |text| && text[r.value - 1] == '\n'
    ensures last.Some? ==> r.Some? && last.value <= r.value
    ensures r.Some? && last.None? ==> k < r.value
    decreases |text| - k
  {
    if k < |text| && IsSpace(text[k]) then
      NewlineRunEnd(text, k + 1, if text[k] == '\n' then Some(k + 1) else last)
    else last
  }

  /** Where a match of `### Evid[êe]ncias?\s*\n` starting at `i` ends, if there is one. */
  function EvidenceEnd(text: string, i: nat): (r: Option<nat>)
    requires i <= |text|
    ensures r.Some? ==> i + |EvidencePrefix| < r.value <= |text| && text[r.value - 1] == '\n'
  {
    if !PatternAt(text, EvidencePrefix, i) then None
    else
      PatternLength(text, EvidencePrefix, i);
      var j := i + |EvidencePrefix|;
      var k := if j < |text| && SameIgnoringCase(text[j], 's') then j + 1 else j;
      NewlineRunEnd(text, k, None)
  }

  lemma {:induction false} PatternLength(text: string, pat: Pattern, i: nat)
    requires i <= |text| && PatternAt(text, pat, i)
    ensures i + |pat| <= |text|
    decreases |pat|
  {
    if pat != [] {
      assert i < |text| && PatternAt(text, pat[1..], i + 1);
      PatternLength(text, pat[1..], i + 1);
    }
  }

  /** The first position at or after `i` where an evidence heading matches. */
  function FindEvidence(text: string, i: nat): (r: Option<nat>)
    requires i <= |text|
    ensures r.Some? ==> i <= r.value <= |text| && EvidenceEnd(text, r.value).Some?
    decreases |text| - i
  {
    if EvidenceEnd(text, i).Some? then Some(i)
    else if i == |text| then None
    else FindEvidence(text, i + 1)
  }

  lemma {:induction false} FindEvidenceFirst(text: string, i: nat)
    requires i <= |text|
    ensures FindEvidence(text, i).Some? ==>
      forall j :: i <= j < FindEvidence(text, i).value ==> EvidenceEnd(text, j).None?
    ensures FindEvidence(text, i).None? ==> forall j :: i <= j <= |text| ==> EvidenceEnd(text, j).None?
    decreases |text| - i
  {
    if EvidenceEnd(text, i).None? && i < |text| {
      FindEvidenceFirst(text, i + 1);
    }
  }

  // ------------------------------------------------------------- splicing

  /** The new section written when the document has no evidence heading. */
  function EvidenceSection(md: string): string {
    "\n### Evidências\n" + md + "\n"
  }

  const AppendedHeading := "\n\n### Evidências\n"

  /**
   * Where the image block goes and what is inserted there: after the first
   * evidence heading; else a new section before the first analysis heading;
   * else before the first complexity heading; else appended at the end.
   */
  function Placement(h: string, md: string): (r: (nat, string))
    ensures r.0 <= |h|
  {
    match FindEvidence(h, 0)
    case Some(i) => (EvidenceEnd(h, i).value, md)
    case None =>
      match FindPattern(h, AnalysisHeading, 0)
      case Some(i) => (i, EvidenceSection(md))
      case None =>
        match FindPattern(h, ComplexityHeading, 0)
        case Some(i) => (i, EvidenceSection(md))
        case None => (|h|, AppendedHeading + md)
  }

  function Spliced(h: string, images: seq<Image>): (r: string)
    ensures images == [] ==> r == h
  {
    if images == [] then h
    else
      var (p, fragment) := Placement(h, ImagesMarkdown(images));
      h[..p] + fragment + h[p..]
  }

  /** The controller's splice: the image block built by its loop, then placed. */
  method InsertImagesInStory(historia: string, images: seq<Image>) returns (r: string)
    ensures r == Spliced(historia, images)
  {
    if images == [] {
      return historia;
    }
    var md := BuildImagesMarkdown(images);
    r := historia;
    var ev := FindEvidence(r, 0);
    if ev.Some? {
      var e := EvidenceEnd(r, ev.value).value;
      r := r[..e] + md + r[e..];
    } else {
      var an := FindPattern(r, AnalysisHeading, 0);
      if an.Some? {
        r := r[..an.value] + EvidenceSection(md) + r[an.value..];
      } else {
        var cx := FindPattern(r, ComplexityHeading, 0);
        if cx.Some? {
          r := r[..cx.value] + EvidenceSection(md) + r[cx.value..];
        } else {
          r := r + AppendedHeading + md;
        }
      }
    }
  }

  // ----------------------------------------------------------- properties

  /**
   * Nothing of the original document is lost or reordered: the result is the
   * document with one fragment inserted at one position, and the fragment
   * carries the whole image block.
   */
  lemma SpliceKeepsOriginal(h: string, images: seq<Image>)
    requires images != []
    ensures exists p: nat, f: string ::
      (p <= |h| && Spliced(h, images) == h[..p] + f + h[p..] && Contains(f, ImagesMarkdown(images)))
    ensures |Spliced(h, images)| > |h|
  {
    var md := ImagesMarkdown(images);
    var (p, f) := Placement(h, md);
    assert Spliced(h, images) == h[..p] + f + h[p..];
    FragmentCarries(h, md);
    assert |md| > 0 by {
      assert |md| >= |ImagesHeader|;
    }
  }

  /** What the placement inserts carries the whole image block. */
  lemma FragmentCarries(h: string, md: string)
    ensures Contains(Placement(h, md).1, md)
    ensures |Placement(h, md).1| >= |md|
  {
    var f := Placement(h, md).1;
    if f == md {
      ContainsConcat([], md, []);
      assert [] + md + [] == md;
    } else if f == EvidenceSection(md) {
      ContainsConcat("\n### Evidências\n", md, "\n");
    } else {
      assert f == AppendedHeading + md;
      ContainsConcat(AppendedHeading, md, []);
      assert AppendedHeading + md + [] == f;
    }
  }

  /** No evidence heading starts before position `n`. */
  predicate NoEvidenceBefore(h: string, n: nat)
    requires n <= |h| + 1
  {
    forall j :: 0 <= j < n ==> EvidenceEnd(h, j).None?
  }

  /** `pat` matches nowhere before position `n`. */
  predicate NoMatchBefore(h: string, pat: Pattern, n: nat)
    requires n <= |h| + 1
  {
    forall j :: 0 <= j < n ==> !PatternAt(h, pat, j)
  }

  /** The search finds exactly the first evidence heading, and none when there is none. */
  lemma FindEvidenceIsFirst(h: string, i: nat)
    requires i <= |h|
    ensures FindEvidence(h, 0) == Some(i) <==> EvidenceEnd(h, i).Some? && NoEvidenceBefore(h, i)
    ensures FindEvidence(h, 0).None? <==> NoEvidenceBefore(h, |h| + 1)
  {
    FindEvidenceFirst(h, 0);
  }

  /** The search finds exactly the first match of `pat`, and none when there is none. */
  lemma FindPatternIsFirst(h: string, pat: Pattern, i: nat)
    requires i <= |h|
    ensures FindPattern(h, pat, 0) == Some(i) <==> PatternAt(h, pat, i) && NoMatchBefore(h, pat, i)
    ensures FindPattern(h, pat, 0).None? <==> NoMatchBefore(h, pat, |h| + 1)
  {
    FindPatternFirst(h, pat, 0);
  }

  /** With an evidence heading, the block goes right after the first one and only there. */
  lemma SpliceAfterEvidence(h: string, images: seq<Image>, i: nat)
    requires images != []
    requires i <= |h| && EvidenceEnd(h, i).Some? && NoEvidenceBefore(h, i)
    ensures var e := EvidenceEnd(h, i).value;
      Spliced(h, images) == h[..e] + ImagesMarkdown(images) + h[e..]
  {
    FindEvidenceIsFirst(h, i);
  }

  /** Without an evidence heading, a new section goes before the first analysis heading. */
  lemma SpliceBeforeAnalysis(h: string, images: seq<Image>, i: nat)
    requires images != []
    requires NoEvidenceBefore(h, |h| + 1)
    requires i <= |h| && PatternAt(h, AnalysisHeading, i) && NoMatchBefore(h, AnalysisHeading, i)
    ensures Spliced(h, images) == h[..i] + EvidenceSection(ImagesMarkdown(images)) + h[i..]
  {
    FindEvidenceIsFirst(h, i);
    FindPatternIsFirst(h, AnalysisHeading, i);
  }

  /** Without evidence or analysis headings, the new section goes before the first complexity heading. */
  lemma SpliceBeforeComplexity(h: string, images: seq<Image>, i: nat)
    requires images != []
    requires NoEvidenceBefore(h, |h| + 1) && NoMatchBefore(h, AnalysisHeading, |h| + 1)
    requires i <= |h| && PatternAt(h, ComplexityHeading, i) && NoMatchBefore(h, ComplexityHeading, i)
    ensures Spliced(h, images) == h[..i] + EvidenceSection(ImagesMarkdown(images)) + h[i..]
  {
    FindEvidenceIsFirst(h, i);
    FindPatternIsFirst(h, AnalysisHeading, i);
    FindPatternIsFirst(h, ComplexityHeading, i);
  }

  /** With none of the three headings, the section is appended at the end. */
  lemma SpliceAppends(h: string, images: seq<Image>)
    requires images != []
    requires NoEvidenceBefore(h, |h| + 1) && NoMatchBefore(h, AnalysisHeading, |h| + 1)
    requires NoMatchBefore(h, ComplexityHeading, |h| + 1)
    ensures Spliced(h, images) == h + AppendedHeading + ImagesMarkdown(images)
  {
    FindEvidenceIsFirst(h, 0);
    FindPatternIsFirst(h, AnalysisHeading, 0);
    FindPatternIsFirst(h, ComplexityHeading, 0);
    var md := ImagesMarkdown(images);
    assert Placement(h, md) == (|h|, AppendedHeading + md);
    AppendRegroup(h, AppendedHeading, md);
  }

  lemma AppendRegroup(h: string, a: string, m: string)
    ensures h[..|h|] + (a + m) + h[|h|..] == h + a + m
  {
    assert h[..|h|] == h && h[|h|..] == [];
  }

  /** Whether a character is in a class depends only on its lower-case form. */
  lemma {:induction false} ClassHasIgnoresCase(cls: seq<char>, c: char, d: char)
    requires SameIgnoringCase(c, d)
    ensures ClassHas(cls, c) == ClassHas(cls, d)
  {
    if cls != [] {
      ClassHasIgnoresCase(cls[1..], c, d);
    }
  }

  /** Two strings that differ at most in the case of their letters. */
  predicate AgreeIgnoringCase(x: string, y: string) {
    |x| == |y| && forall k :: 0 <= k < |x| ==> SameIgnoringCase(x[k], y[k])
  }

  /**
   * The heading search ignores case: a pattern matches at `i` in `t` exactly
   * when it matches at `j` in any `u` that agrees with `t` there up to case.
   */
  lemma {:induction false} PatternAtIgnoresCase(t: string, i: nat, u: string, j: nat, pat: Pattern)
    requires i + |pat| <= |t| && j + |pat| <= |u|
    requires AgreeIgnoringCase(t[i..i + |pat|], u[j..j + |pat|])
    ensures PatternAt(t, pat, i) == PatternAt(u, pat, j)
    decreases |pat|
  {
    if pat != [] {
      var x, y := t[i..i + |pat|], u[j..j + |pat|];
      assert x[0] == t[i] && y[0] == u[j];
      ClassHasIgnoresCase(pat[0], t[i], u[j]);
      assert t[i + 1..i + 1 + |pat[1..]|] == x[1..];
      assert u[j + 1..j + 1 + |pat[1..]|] == y[1..];
      PatternAtIgnoresCase(t, i + 1, u, j + 1, pat[1..]);
    }
  }
}
