// Story generation: which prompt builder a form selects, the request that is
// sent (plain text, or images followed by the text for a bug report with
// evidence) and how the generator's reply or failure is passed on.

module Generation {
  import opened Base
  import opened Text
  import opened Splice
  import opened FormData
  import opened Prompts

  // -------------------------------------------------------------- dispatch

  datatype Builder = BusinessBuilder | SpikeBuilder | KaizenBuilder | FixBuilder

  /**
   * The builder the form's category selects: each of the three named categories
   * selects its own builder and only that one; every other category, and an
   * absent form, is a business story.
   */
  function Dispatch(f: Form): (b: Builder)
    ensures b == SpikeBuilder <==> Category(f) == "Spike"
    ensures b == KaizenBuilder <==> Category(f) == "Kaizen"
    ensures b == FixBuilder <==> Category(f) == "Fix/Bug/Incidente"
    ensures b == BusinessBuilder <==> Category(f) !in {"Spike", "Kaizen", "Fix/Bug/Incidente"}
    ensures "value_area" !in f ==> b == BusinessBuilder
  {
    var area := Category(f);
    if area == SpikeCategory then SpikeBuilder
    else if area == KaizenCategory then KaizenBuilder
    else if area == FixCategory then FixBuilder
    else BusinessBuilder
  }

  /** The prompt for the form; the business builder receives the fields the way the controller reads them. */
  function Prompt(t: Templates, f: Form): (r: string)
    requires WellFormed(t)
    ensures Strip(r) == r
  {
    match Dispatch(f)
    case SpikeBuilder => SpikePrompt(t, f)
    case KaizenBuilder => KaizenPrompt(t, f)
    case FixBuilder => FixPrompt(t, f)
    case BusinessBuilder =>
      BusinessPrompt(t, GetStr(f, "titulo", ""), GetItems(f, "regras_negocio"), GetItems(f, "apis_servicos"),
        GetEntries(f, "objetivos"), GetNum(f, "complexidade", 5), GetItems(f, "criterios_aceitacao"),
        GetEntries(f, "api_specs"), f)
  }

  // ------------------------------------------------------- request content

  /** A content block of a multimodal message. */
  datatype Block =
    | ImageSource(mediaType: string, data: string)
    | TextPrompt(text: string)

  /** The block for one attached image: the type defaults to PNG and the data to empty. */
  function SourceOf(img: Image): Block {
    ImageSource(img.mime.GetOr(DefaultMime), img.data.GetOr(""))
  }

  function ImageSources(images: seq<Image>): seq<Block> {
    if images == [] then []
    else ImageSources(images[..|images| - 1]) + [SourceOf(images[|images| - 1])]
  }

  /** One image block per image, in the images' order. */
  lemma {:induction false} ImageSourcesFacts(images: seq<Image>)
    ensures |ImageSources(images)| == |images|
    ensures forall k :: 0 <= k < |images| ==> ImageSources(images)[k] == SourceOf(images[k])
  {
    if images != [] {
      var init := images[..|images| - 1];
      ImageSourcesFacts(init);
      forall k | 0 <= k < |images|
        ensures ImageSources(images)[k] == SourceOf(images[k])
      {
        if k < |images| - 1 {
          assert images[k] == init[k];
        }
      }
    }
  }

  /** The multimodal message: the images first, then the prompt. */
  function Content(images: seq<Image>, prompt: string): seq<Block> {
    ImageSources(images) + [TextPrompt(prompt)]
  }

  /** The content carries every image in order and exactly one text block, the prompt, last. */
  lemma ContentOrder(images: seq<Image>, prompt: string)
    ensures |Content(images, prompt)| == |images| + 1
    ensures forall k :: 0 <= k < |images| ==> Content(images, prompt)[k] == SourceOf(images[k])
    ensures forall k :: 0 <= k < |images| + 1 ==> (Content(images, prompt)[k].TextPrompt? <==> k == |images|)
    ensures Content(images, prompt)[|images|] == TextPrompt(prompt)
  {
    ImageSourcesFacts(images);
  }

  method BuildContent(images: seq<Image>, prompt: string) returns (content: seq<Block>)
    ensures content == Content(images, prompt)
  {
    content := [];
    var i := 0;
    while i < |images|
      invariant 0 <= i <= |images|
      invariant content == ImageSources(images[..i])
    {
      var img := images[i];
      content := content + [ImageSource(img.mime.GetOr(DefaultMime), img.data.GetOr(""))];
      assert images[..i + 1][..i] == images[..i];
      i := i + 1;
    }
    assert images[..i] == images;
    content := content + [TextPrompt(prompt)];
  }

  /** The message sent to the generator. */
  datatype Request =
    | Plain(prompt: string)
    | Multimodal(content: seq<Block>)

  function RequestFor(t: Templates, f: Form): Request
    requires WellFormed(t)
  {
    var images := GetImages(f, "fix_images");
    if images != [] && Category(f) == FixCategory then Multimodal(Content(images, Prompt(t, f)))
    else Plain(Prompt(t, f))
  }

  /** Images travel only with a bug report that has them; otherwise the prompt goes alone. */
  lemma RequestShape(t: Templates, f: Form)
    requires WellFormed(t)
    ensures RequestFor(t, f).Multimodal? <==> GetImages(f, "fix_images") != [] && Category(f) == "Fix/Bug/Incidente"
    ensures RequestFor(t, f).Plain? ==> RequestFor(t, f).prompt == Prompt(t, f)
    ensures RequestFor(t, f).Multimodal? ==>
      var c := RequestFor(t, f).content;
      |c| == |GetImages(f, "fix_images")| + 1 && c[|c| - 1] == TextPrompt(Prompt(t, f))
  {
    if RequestFor(t, f).Multimodal? {
      ContentOrder(GetImages(f, "fix_images"), Prompt(t, f));
    }
  }

  // ---------------------------------------------------------------- replies

  /** What the generator answers: the texts of the reply's content, or one of the failures the client raises. */
  datatype Reply =
    | Response(texts: seq<string>)
    | TimedOut
    | RateLimited
    | ConnectionFailed
    | Failed(message: string)

  /** The class of a raised error, as the controller tells them apart. */
  datatype ErrorClass =
    | TimeoutError
    | RateLimitError
    | ConnectionError
    | OtherError(typeName: string)

  datatype Raised = Raised(cls: ErrorClass, message: string)

  const TimeoutMessage := "Tempo esgotado ao aguardar resposta da IA. Tente novamente."
  const RateLimitMessage := "Limite de requisições atingido. Aguarde alguns minutos."
  const ConnectionMessage := "Erro de conexão com a API. Verifique sua internet."
  const WrapPrefix := "Erro ao gerar história: "
  const EmptyReply := "Resposta vazia da API"

  /** The text of the first content block, or the error raised in its place. */
  function Outcome(reply: Reply): Result<string, Raised> {
    match reply
    case Response(texts) =>
      if texts != [] then Ok(texts[0]) else Err(Raised(OtherError("Exception"), WrapPrefix + EmptyReply))
    case TimedOut => Err(Raised(TimeoutError, TimeoutMessage))
    case RateLimited => Err(Raised(RateLimitError, RateLimitMessage))
    case ConnectionFailed => Err(Raised(ConnectionError, ConnectionMessage))
    case Failed(msg) => Err(Raised(OtherError("Exception"), WrapPrefix + msg))
  }

  /** `send` is the generator client. */
  function GenerateStory(t: Templates, f: Form, send: Request -> Reply): Result<string, Raised>
    requires WellFormed(t)
  {
    Outcome(send(RequestFor(t, f)))
  }

  /**
   * A story comes back exactly when the reply has content; the three transport
   * failures keep their class and every other failure becomes a plain error
   * whose message still holds the original one.
   */
  lemma OutcomeClasses(reply: Reply)
    ensures Outcome(reply).Ok? <==> reply.Response? && reply.texts != []
    ensures Outcome(reply).Ok? ==> Outcome(reply).value == reply.texts[0]
    ensures Outcome(reply).Err? && Outcome(reply).error.cls == TimeoutError <==> reply.TimedOut?
    ensures Outcome(reply).Err? && Outcome(reply).error.cls == RateLimitError <==> reply.RateLimited?
    ensures Outcome(reply).Err? && Outcome(reply).error.cls == ConnectionError <==> reply.ConnectionFailed?
    ensures reply.Failed? ==> Outcome(reply).error.cls == OtherError("Exception")
    ensures reply.Failed? ==> WrapPrefix <= Outcome(reply).error.message
    ensures reply.Failed? ==> Contains(Outcome(reply).error.message, reply.message)
  {
    if reply.Failed? {
      ContainsConcat(WrapPrefix, reply.message, []);
      assert WrapPrefix + reply.message + [] == WrapPrefix + reply.message;
    }
  }
}
