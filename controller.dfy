// The story controller: one story per submitted form, with the generator's
// failures reduced to the kinds the page reports and the new story saved in
// the session's store.

module Controller {
  import opened Base
  import opened Text
  import opened Stories
  import opened Splice
  import opened FormData
  import opened Prompts
  import opened Generation

  // ------------------------------------------------------------ error kinds

  /** The lower-cased message names a credential problem. */
  predicate MentionsCredentials(message: string) {
    var m := Lower(message);
    Contains(m, "api key") || Contains(m, "authentication") || Contains(m, "unauthorized")
  }

  const GenericPrefix := "generic:"

  /** The kind reported for a raised error; `trace` stands for the formatted stack trace. */
  function ErrorKind(e: Raised, trace: string): string {
    match e.cls
    case TimeoutError => "timeout"
    case RateLimitError => "rate_limit"
    case ConnectionError => "connection"
    case OtherError(name) =>
      if MentionsCredentials(e.message) then "api_key"
      else GenericPrefix + name + ": " + e.message + "\n\nStack Trace:\n" + trace
  }

  /**
   * The three transport classes keep their own kind; any other error is a
   * credential problem exactly when its message says so, and otherwise a
   * generic kind that carries the error's type name and message.
   */
  lemma ErrorKindFacts(e: Raised, trace: string)
    ensures var k := ErrorKind(e, trace);
      k in {"timeout", "rate_limit", "connection", "api_key"} || GenericPrefix <= k
    ensures ErrorKind(e, trace) == "timeout" <==> e.cls == TimeoutError
    ensures ErrorKind(e, trace) == "rate_limit" <==> e.cls == RateLimitError
    ensures ErrorKind(e, trace) == "connection" <==> e.cls == ConnectionError
    ensures ErrorKind(e, trace) == "api_key" <==> e.cls.OtherError? && MentionsCredentials(e.message)
    ensures GenericPrefix <= ErrorKind(e, trace) <==> e.cls.OtherError? && !MentionsCredentials(e.message)
    ensures GenericPrefix <= ErrorKind(e, trace) ==> Contains(ErrorKind(e, trace), e.message)
  {
    var k := ErrorKind(e, trace);
    assert GenericPrefix[0] == 'g';
    if e.cls.OtherError? && !MentionsCredentials(e.message) {
      var head := GenericPrefix + e.cls.typeName + ": ";
      assert k == head + e.message + ("\n\nStack Trace:\n" + trace);
      ContainsConcat(head, e.message, "\n\nStack Trace:\n" + trace);
    }
  }

  lemma LowerConcat(a: string, b: string)
    ensures Lower(a + b) == Lower(a) + Lower(b)
  {
    assert forall k :: 0 <= k < |a| ==> (a + b)[k] == a[k];
    assert forall k :: |a| <= k < |a| + |b| ==> (a + b)[k] == b[k - |a|];
  }

  /** The generator's wrapping keeps a credential complaint visible to the controller. */
  lemma WrappedCredentials(message: string)
    requires MentionsCredentials(message)
    ensures MentionsCredentials(WrapPrefix + message)
  {
    LowerConcat(WrapPrefix, message);
    assert Lower(WrapPrefix + message) == Lower(WrapPrefix) + Lower(message) + [];
    var m := Lower(message);
    if Contains(m, "api key") {
      ContainsWithin(Lower(WrapPrefix), m, [], "api key");
    } else if Contains(m, "authentication") {
      ContainsWithin(Lower(WrapPrefix), m, [], "authentication");
    } else {
      ContainsWithin(Lower(WrapPrefix), m, [], "unauthorized");
    }
  }

  // ------------------------------------------------------------------ store

  /** The session's list of saved stories, in their dictionary form. */
  class SessionStore {
    var stories: seq<StoryDict>

    constructor ()
      ensures stories == []
    {
      stories := [];
    }

    method AddStory(d: StoryDict)
      modifies this
      ensures stories == old(stories) + [d]
    {
      stories := stories + [d];
    }
  }

  // --------------------------------------------------------------- creation

  /** The generated text as stored: a bug report with images gets them spliced in. */
  function Finished(f: Form, text: string): string {
    var images := GetImages(f, "fix_images");
    if Category(f) == FixCategory && images != [] then Spliced(text, images) else text
  }

  /** The constructor arguments the controller passes, with the form's defaults. */
  function StoryArgsFor(f: Form, historia: string): StoryArgs {
    StoryArgs(
      GetStr(f, "titulo", ""),
      Some(GetItems(f, "regras_negocio")),
      Some(GetItems(f, "apis_servicos")),
      Some(GetEntries(f, "objetivos")),
      Some(GetNum(f, "complexidade", 5)),
      Some(GetItems(f, "criterios_aceitacao")),
      Some(historia),
      Some(Category(f)))
  }

  /**
   * The pair `create_story` returns once the generator has produced
   * `generated`: `id` and `createdAt` are the identifier and clock values,
   * `describe` the text of a construction failure and `trace` the stack trace.
   * Exactly one half of the pair is present. A story comes back exactly when
   * the generator answered and the record validated; it then holds the
   * finished text and the form's category, "Business" when the form names none.
   */
  function CreateOutcome(f: Form, generated: Result<string, Raised>, id: string, createdAt: string,
    describe: seq<FieldError> -> string, trace: string): (r: (Option<Story>, Option<string>))
    ensures r.0.Some? <==> r.1.None?
    ensures r.0.Some? <==> generated.Ok? && NewStory(id, createdAt, StoryArgsFor(f, Finished(f, generated.value))).Ok?
    ensures r.0.Some? ==>
      && ValidStory(r.0.value)
      && r.0.value.historiaGerada == Finished(f, generated.value)
      && r.0.value.valueArea == Category(f)
      && ("value_area" !in f ==> r.0.value.valueArea == "Business")
      && r.0.value.complexidade == GetNum(f, "complexidade", 5)
  {
    match generated
    case Err(e) => (None, Some(ErrorKind(e, trace)))
    case Ok(text) =>
      match NewStory(id, createdAt, StoryArgsFor(f, Finished(f, text)))
      case Ok(s) => (Some(s), None)
      case Err(errors) => (None, Some(ErrorKind(Raised(OtherError("ValidationError"), describe(errors)), trace)))
  }

  /** A timeout, rate limit or connection failure of the generator is reported as such and no story is made. */
  lemma TransportFailureKinds(f: Form, reply: Reply, id: string, createdAt: string,
    describe: seq<FieldError> -> string, trace: string)
    ensures var (story, kind) := CreateOutcome(f, Outcome(reply), id, createdAt, describe, trace);
      && (reply.TimedOut? ==> story.None? && kind == Some("timeout"))
      && (reply.RateLimited? ==> story.None? && kind == Some("rate_limit"))
      && (reply.ConnectionFailed? ==> story.None? && kind == Some("connection"))
      && (reply.Response? && reply.texts == [] ==> story.None? && kind.Some?)
  {
    var g := Outcome(reply);
    if g.Err? {
      assert CreateOutcome(f, g, id, createdAt, describe, trace) == (None, Some(ErrorKind(g.error, trace)));
    }
  }

  /** A generator failure whose message names a credential problem is reported as "api_key". */
  lemma CredentialFailureKind(f: Form, reply: Reply, id: string, createdAt: string,
    describe: seq<FieldError> -> string, trace: string)
    requires reply.Failed? && MentionsCredentials(reply.message)
    ensures CreateOutcome(f, Outcome(reply), id, createdAt, describe, trace) == (None, Some("api_key"))
  {
    var g := Outcome(reply);
    assert g == Err(Raised(OtherError("Exception"), WrapPrefix + reply.message));
    WrappedCredentials(reply.message);
    assert ErrorKind(g.error, trace) == "api_key";
  }

  /** Images are spliced only into a bug report that has them; the generated text is otherwise kept as it is. */
  lemma FinishedSplicesOnlyFixImages(f: Form, text: string)
    ensures Category(f) != "Fix/Bug/Incidente" || GetImages(f, "fix_images") == [] ==> Finished(f, text) == text
    ensures Category(f) == "Fix/Bug/Incidente" && GetImages(f, "fix_images") != [] ==>
      exists p: nat, fragment: string ::
        (p <= |text| && Finished(f, text) == text[..p] + fragment + text[p..]
         && Contains(fragment, ImagesMarkdown(GetImages(f, "fix_images"))))
  {
    if Category(f) == FixCategory && GetImages(f, "fix_images") != [] {
      SpliceKeepsOriginal(text, GetImages(f, "fix_images"));
    }
  }

  /** `create_story`: on success exactly one dictionary, the story's, is added to the store; on failure the store is unchanged. */
  method CreateStory(store: SessionStore, t: Templates, f: Form, send: Request -> Reply, id: string, createdAt: string,
    describe: seq<FieldError> -> string, trace: string) returns (story: Option<Story>, kind: Option<string>)
    requires WellFormed(t)
    modifies store
    ensures (story, kind) == CreateOutcome(f, GenerateStory(t, f, send), id, createdAt, describe, trace)
    ensures story.Some? ==> store.stories == old(store.stories) + [ToDict(story.value)]
    ensures story.None? ==> store.stories == old(store.stories)
  {
    var generated := GenerateStory(t, f, send);
    if generated.Err? {
      return None, Some(ErrorKind(generated.error, trace));
    }
    var historia := generated.value;
    var images := GetImages(f, "fix_images");
    if Category(f) == FixCategory && images != [] {
      historia := InsertImagesInStory(historia, images);
    }
    var built := NewStory(id, createdAt, StoryArgsFor(f, historia));
    if built.Err? {
      return None, Some(ErrorKind(Raised(OtherError("ValidationError"), describe(built.error)), trace));
    }
    store.AddStory(ToDict(built.value));
    story, kind := Some(built.value), None;
  }
}
