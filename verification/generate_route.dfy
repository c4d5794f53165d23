/**
 * `POST /api/generate`: splits the uploaded data URI into payload and MIME type, asks the
 * model for code and strips a surrounding markdown fence from the answer. The body read,
 * the API key and the model call are inputs; the result records the model request made.
 */
module GenerateRoute {
  import opened Wrappers
  import opened Text
  import opened Domain
  import opened ApiCommon
  import FigmaRoute

  /** The JSON body: unreadable (with the exception's message) or its fields; `imageBase64` may be missing. */
  datatype GenerateRequest =
    | Unreadable(message: string)
    | GenerateRequest(imageBase64: Option<string>, language: string, description: string)

  /** The inline image sent to the model. */
  datatype ImagePart = ImagePart(data: string, mime: string)

  /** The model call: it throws, or answers with text. */
  datatype ModelOutcome = ModelThrew(message: string) | ModelText(text: string)

  datatype ModelRequest = ModelRequest(prompt: string, image: ImagePart)

  /** The reply, and the model request when one was made. */
  datatype GenerateOutcome = GenerateOutcome(reply: Reply<string>, modelRequest: Option<ModelRequest>)

  const DefaultMime: string := "image/png"
  const NoApiKey: string := "Gemini API key is not configured"
  const GenerateFailed: string := "Failed to generate code"

  /**
   * `mime` is the text of `header` after its `:` at index `j`, up to the next `:` or `;` or
   * the end.
   */
  predicate FieldAfter(header: string, j: nat, mime: string) {
    && j + 1 + |mime| <= |header| && header[j + 1..j + 1 + |mime|] == mime
    && ':' !in mime && ';' !in mime
    && (j + 1 + |mime| == |header| || header[j + 1 + |mime|] == ':' || header[j + 1 + |mime|] == ';')
  }

  /** The first `;`-free piece of a `:`-free field after index `j` is a field after `j` too. */
  lemma FieldAfterPrefix(header: string, j: nat, afterColon: string, mime: string)
    requires j + 1 + |afterColon| <= |header| && header[j + 1..j + 1 + |afterColon|] == afterColon
    requires j + 1 + |afterColon| == |header| || header[j + 1 + |afterColon|] == ':'
    requires ':' !in afterColon && mime == BeforeFirst(afterColon, ';')
    ensures FieldAfter(header, j, mime)
  {
    BeforeFirstInSlice(header, j + 1, afterColon, ':', ';', mime);
    NoCharInPrefix(afterColon, mime, ':');
  }

  /** Where `split(':')[1].split(';')[0]` lies in the header, for its first `:` at index `j`. */
  lemma MimeFieldAt(header: string, j: nat, afterColon: string)
    requires j < |header| && afterColon == BeforeFirst(header[j + 1..], ':')
    ensures FieldAfter(header, j, BeforeFirst(afterColon, ';'))
  {
    BeforeFirstFrom(header, ':', j + 1, afterColon);
    FieldAfterPrefix(header, j, afterColon, BeforeFirst(afterColon, ';'));
  }

  /**
   * `header.split(':')[1].split(';')[0]`: the text after the header's first `:` up to the next
   * `:` or `;`. Without a `:` the `.split` is applied to `undefined` and throws: `None`.
   */
  function MimeOf(header: string): (r: Option<string>)
    ensures r.None? <==> ':' !in header
    ensures r.Some? ==> ':' in header && FieldAfter(header, CharIndex(header, ':'), r.value)
  {
    if ':' !in header then None
    else
      MimeFieldAt(header, CharIndex(header, ':'), SecondField(header, ':').value);
      Some(BeforeFirst(SecondField(header, ':').value, ';'))
  }

  /**
   * The payload and MIME type of `imageBase64`. Without a comma the whole input is the payload,
   * typed `image/png`. With one, the payload is the text after the first comma up to the next,
   * and the MIME type is that of the header before the first comma.
   */
  function SplitImage(s: string): (r: Option<ImagePart>)
    ensures ',' !in s ==> r == Some(ImagePart(s, DefaultMime))
    ensures ',' in s ==> (r.None? <==> ':' !in s[..CharIndex(s, ',')])
    ensures ',' in s && r.Some? ==>
              var i := CharIndex(s, ',');
              var data := r.value.data;
              && ',' !in data
              && i + 1 + |data| <= |s| && s[i + 1..i + 1 + |data|] == data
              && (i + 1 + |data| == |s| || s[i + 1 + |data|] == ',')
              && r.value.mime == MimeOf(s[..i]).value
  {
    if ',' !in s then Some(ImagePart(s, DefaultMime))
    else
      var header := BeforeFirst(s, ',');
      assert header == s[..CharIndex(s, ',')];
      var data := SecondField(s, ',').value;
      BeforeFirstFrom(s, ',', CharIndex(s, ',') + 1, data);
      match MimeOf(header)
      case None => None
      case Some(mime) => Some(ImagePart(data, mime))
  }

  /** The data URI the Figma route builds splits back into its payload and MIME type. */
  lemma FigmaImageRoundTrip(mime: string, base64: string)
    requires ',' !in mime && ':' !in mime && ';' !in mime
    requires ',' !in base64
    ensures SplitImage(FigmaRoute.DataUri(mime, base64)) == Some(ImagePart(base64, mime))
  {
    var s := FigmaRoute.DataUri(mime, base64);
    var i := 5 + |mime| + 7;
    assert s == "data:" + mime + ";base64," + base64;
    assert s[i] == ',';
    assert s[..i] == "data:" + mime + ";base64";
    CharIndexAt(s, ',', i);
    BeforeFirstAt(s, ',', i);
    var header := s[..i];
    assert s[i + 1..] == base64;
    BeforeFirstAt(base64, ',', |base64|);
    assert header[4] == ':';
    assert header[..4] == "data";
    CharIndexAt(header, ':', 4);
    var afterColon := header[5..];
    assert afterColon == mime + ";base64";
    BeforeFirstAt(afterColon, ':', |afterColon|);
    assert afterColon[..|afterColon|] == afterColon;
    assert afterColon[|mime|] == ';' && afterColon[..|mime|] == mime;
    BeforeFirstAt(afterColon, ';', |mime|);
    assert MimeOf(header) == Some(mime);
  }

  // Fence cleanup: `.replace(/^```[\w]*\n/, '')` then `.replace(/\n```$/, '')`.

  const Fence: string := "```"
  const ClosingFence: string := "\n```"

  /** Where the text after an opening fence line begins, when the input starts with one. */
  function OpenFenceEnd(s: string): (e: Option<nat>)
    ensures e.Some? ==> 4 <= e.value <= |s| && s[..3] == Fence && s[e.value - 1] == '\n'
    ensures e.Some? ==> forall k | 3 <= k < e.value - 1 :: IsWordChar(s[k])
    ensures e.None? ==> !OccursAt(s, Fence, 0) ||
                        var w := RunEnd(s, 3, IsWordChar); w == |s| || s[w] != '\n'
  {
    if !OccursAt(s, Fence, 0) then None
    else
      var w := RunEnd(s, 3, IsWordChar);
      if w < |s| && s[w] == '\n' then Some(w + 1) else None
  }

  /** `s` ends with a newline and a fence. */
  predicate EndsWithClosingFence(s: string) {
    |s| >= 4 && s[|s| - 4..] == ClosingFence
  }

  /**
   * The answer without an opening fence line at the very start and a closing fence at the
   * very end: a slice of the answer that drops exactly those.
   */
  function CleanFences(code: string): (r: string)
    ensures var a := if OpenFenceEnd(code).Some? then OpenFenceEnd(code).value else 0;
            var rest := code[a..];
            && a + |r| <= |code| && r == code[a..a + |r|]
            && (EndsWithClosingFence(rest) ==> a + |r| == |code| - 4)
            && (!EndsWithClosingFence(rest) ==> a + |r| == |code|)
    ensures OpenFenceEnd(code).None? && !EndsWithClosingFence(code) ==> r == code
  {
    var rest := match OpenFenceEnd(code) case Some(e) => code[e..] case None => code;
    if EndsWithClosingFence(rest) then rest[..|rest| - 4] else rest
  }

  /** A fenced block with a word-character language tag cleans to exactly its body. */
  lemma CleanFencedBlock(lang: string, body: string)
    requires forall k | 0 <= k < |lang| :: IsWordChar(lang[k])
    ensures CleanFences(Fence + lang + "\n" + body + ClosingFence) == body
  {
    var code := Fence + lang + "\n" + body + ClosingFence;
    assert OccursAt(code, Fence, 0);
    assert forall k | 3 <= k < 3 + |lang| :: code[k] == lang[k - 3];
    var w := RunEnd(code, 3, IsWordChar);
    assert code[3 + |lang|] == '\n';
    assert w == 3 + |lang|;
    assert OpenFenceEnd(code) == Some(4 + |lang|);
    var rest := code[4 + |lang|..];
    assert rest == body + ClosingFence;
    assert EndsWithClosingFence(rest);
  }

  const PromptHead: string := "You are an expert frontend developer. Generate clean, production-ready "
  const PromptMiddle: string := " code based on the provided design. Use Tailwind CSS for styling. \n    \n    The target language/framework is: "
  const PromptLabel: string := "\n    Description of the design: "
  const PromptTail: string := "\n    \n    Please provide only the requested code block."

  /** The prompt's pieces, grouped around the first language name or around the description. */
  lemma Regroup(head: string, language: string, middle: string, caption: string, description: string, tail: string)
    ensures head + language + (middle + language + caption + description + tail)
            == (head + language + middle + language + caption) + description + tail
  {
  }

  /** The prompt sent with the image; it names the language and quotes the description. */
  function Prompt(language: string, description: string): (p: string)
    ensures Contains(p, language) && Contains(p, description)
  {
    var before := PromptHead + language + PromptMiddle + language + PromptLabel;
    var p := before + description + PromptTail;
    ContainsSelf(language);
    ContainsSelf(description);
    ContainsInContext(PromptHead, language, PromptMiddle + language + PromptLabel + description + PromptTail, language);
    Regroup(PromptHead, language, PromptMiddle, PromptLabel, description, PromptTail);
    ContainsInContext(before, description, PromptTail, description);
    p
  }

  /** The route; `typeErrorMessage` is the runtime's text for the `TypeError` a malformed image raises. */
  function PostGenerate(apiKey: Option<string>, request: GenerateRequest, typeErrorMessage: string, model: ModelOutcome)
    : (r: GenerateOutcome)
    ensures request.Unreadable? ==> r == GenerateOutcome(Fail(500, ErrorText(request.message, GenerateFailed)), None)
    ensures request.GenerateRequest? && !Truthy(apiKey) ==> r == GenerateOutcome(Fail(500, NoApiKey), None)
    ensures r.modelRequest.None? <==>
              (request.Unreadable? || !Truthy(apiKey) || request.imageBase64.None? || SplitImage(request.imageBase64.value).None?)
    ensures request.GenerateRequest? && Truthy(apiKey) && r.modelRequest.None? ==>
              r.reply == Fail(500, ErrorText(typeErrorMessage, GenerateFailed))
    ensures r.modelRequest.Some? ==>
              && r.modelRequest.value.image == SplitImage(request.imageBase64.value).value
              && r.modelRequest.value.prompt == Prompt(request.language, request.description)
              && (model.ModelThrew? ==> r.reply == Fail(500, ErrorText(model.message, GenerateFailed)))
              && (model.ModelText? ==> r.reply == Ok(CleanFences(model.text)))
  {
    match request
    case Unreadable(m) => GenerateOutcome(Fail(500, ErrorText(m, GenerateFailed)), None)
    case GenerateRequest(imageBase64, language, description) =>
      if !Truthy(apiKey) then GenerateOutcome(Fail(500, NoApiKey), None)
      else
        var image := if imageBase64.Some? then SplitImage(imageBase64.value) else None;
        match image
        case None => GenerateOutcome(Fail(500, ErrorText(typeErrorMessage, GenerateFailed)), None)
        case Some(part) =>
          var call := Some(ModelRequest(Prompt(language, description), part));
          match model
          case ModelThrew(m) => GenerateOutcome(Fail(500, ErrorText(m, GenerateFailed)), call)
          case ModelText(text) => GenerateOutcome(Ok(CleanFences(text)), call)
  }
}
