/** The try-on client: turns two selected files into one generate-content
    request (person image, clothing image, fixed instruction, in that order),
    picks the first inline image out of the response, and converts every
    failure into one `Error` with a human-readable message.

    The hosted model is a black box: the call is the parameter `api`, a
    function from the request to how the awaited call settles. The file
    reader is a black box too: what `readAsDataURL` leaves in `reader.result`
    is a parameter of type ReaderResult. */
module GeminiService {
  import opened Js

  const ApiKeyMissingMessage := "API_KEY environment variable is not set"
  const ModelName := "gemini-2.5-flash-image-preview"
  const Prompt := "Take the person from the first image and the clothing item from the second image. Generate a new, photorealistic image of the person wearing the clothing item. The output should only be the final image. Ensure the fit and lighting are natural."
  const NoImageMessage := "The AI did not return an image. It might have refused the request due to safety policies. Please try with different images."
  const FailurePrefix := "Failed to generate image: "
  const UnexpectedMessage := "An unexpected error occurred while calling the Gemini API."

  // ---------------------------------------------------------------------
  // Configuration

  /** The module-level client, built from the API key. */
  datatype Client = Client(apiKey: string)

  datatype Init = Started(client: Client) | InitFailed(error: Thrown)

  /** Module initialisation: `process.env.API_KEY` is tested for a falsy
      value, so an unset key and an empty key both abort loading with the
      same error; any other key builds the client. */
  function InitService(apiKey: Option<string>): (r: Init)
    ensures r.InitFailed? <==> apiKey.None? || apiKey.value == ""
    ensures r.InitFailed? ==> r.error == ErrorObject(ApiKeyMissingMessage)
    ensures r.Started? ==> r.client.apiKey == apiKey.value
  {
    if !Truthy(apiKey) then InitFailed(ErrorObject(ApiKeyMissingMessage))
    else Started(Client(apiKey.value))
  }

  // ---------------------------------------------------------------------
  // Request shaping

  /** A selected file; only its declared media type (`file.type`) is read here. */
  datatype File = File(name: string, mimeType: string)

  /** `reader.result` after `readAsDataURL`: a string, or something else
      (`null` after a failed read, or an ArrayBuffer). */
  datatype ReaderResult = TextResult(text: string) | OtherResult

  /** `data` may be `undefined`: `split(',')[1]` of a string without a comma. */
  datatype InlineData = InlineData(data: Option<string>, mimeType: string)

  datatype Part = InlinePart(inlineData: InlineData) | TextPart(text: string)

  datatype Modality = ImageModality | TextModality

  datatype Request = Request(model: string, parts: seq<Part>, responseModalities: seq<Modality>)

  /** The data URL `readAsDataURL` produces for base64 content `payload`. */
  function DataUrl(mime: string, payload: string): string {
    "data:" + mime + ";base64," + payload
  }

  /** The transport payload of a reader result: the second comma-separated
      field of a string result (`undefined` when there is no comma), and the
      empty string for a non-string result. */
  function ExtractPayload(r: ReaderResult): (p: Option<string>)
    ensures r.OtherResult? ==> p == Some("")
    ensures r.TextResult? ==> (p.Some? <==> ',' in r.text)
    ensures r.TextResult? && p.Some? ==> ',' !in p.value
  {
    match r
    case TextResult(s) => Index(Split(s, ','), 1)
    case OtherResult => Some("")
  }

  /** Extracting from a well-formed data URL gives back exactly its payload. */
  lemma DataUrlPayload(mime: string, payload: string)
    requires ',' !in mime && ',' !in payload
    ensures ExtractPayload(TextResult(DataUrl(mime, payload))) == Some(payload)
  {
    var head := "data:" + mime + ";base64";
    assert DataUrl(mime, payload) == Join([head, payload], ',');
    assert ',' !in head;
    SplitJoin([head, payload], ',');
  }

  /** `fileToGenerativePart`: an inline part whose MIME type comes from the
      file itself and whose data is the extracted payload. */
  function FileToGenerativePart(file: File, read: ReaderResult): (part: Part)
    ensures part.InlinePart? && part.inlineData.mimeType == file.mimeType
  {
    InlinePart(InlineData(ExtractPayload(read), file.mimeType))
  }

  /** The request body: person part, clothing part, then the instruction. */
  function BuildRequest(personPart: Part, clothingPart: Part): Request {
    Request(ModelName, [personPart, clothingPart, TextPart(Prompt)], [ImageModality, TextModality])
  }

  /** The request `virtualTryOn` sends for the two files. */
  function TryOnRequest(personFile: File, personRead: ReaderResult,
                        clothingFile: File, clothingRead: ReaderResult): Request
  {
    BuildRequest(FileToGenerativePart(personFile, personRead),
                 FileToGenerativePart(clothingFile, clothingRead))
  }

  /** For two files read as data URLs, the request holds exactly three parts:
      the person's payload with the person file's type, the clothing's payload
      with the clothing file's type, and the fixed instruction, which refers
      to them as the first and the second image. */
  lemma RequestOrder(personFile: File, p: string, clothingFile: File, c: string)
    requires ',' !in personFile.mimeType && ',' !in p
    requires ',' !in clothingFile.mimeType && ',' !in c
    ensures var req := TryOnRequest(personFile, TextResult(DataUrl(personFile.mimeType, p)),
                                    clothingFile, TextResult(DataUrl(clothingFile.mimeType, c)));
      && req.model == ModelName
      && |req.parts| == 3
      && req.parts[0] == InlinePart(InlineData(Some(p), personFile.mimeType))
      && req.parts[1] == InlinePart(InlineData(Some(c), clothingFile.mimeType))
      && req.parts[2] == TextPart(Prompt)
  {
    DataUrlPayload(personFile.mimeType, p);
    DataUrlPayload(clothingFile.mimeType, c);
  }

  // ---------------------------------------------------------------------
  // Response scanning

  /** An inline blob in the response; both fields are optional in the SDK. */
  datatype Blob = Blob(data: Option<string>, mimeType: Option<string>)

  datatype ResponsePart = ResponsePart(inlineData: Option<Blob>, text: Option<string>)

  datatype Content = Content(parts: Option<seq<ResponsePart>>)

  datatype Candidate = Candidate(content: Option<Content>)

  datatype Response = Response(candidates: Option<seq<Candidate>>)

  /** `response.candidates?.[0]?.content?.parts || []`: the first candidate's
      parts, with a missing candidate list, an empty one, a missing content
      or a missing part list all read as no parts. */
  function PartsOf(response: Response): (parts: seq<ResponsePart>)
    ensures (|| response.candidates.None?
             || |response.candidates.value| == 0
             || response.candidates.value[0].content.None?
             || response.candidates.value[0].content.value.parts.None?) ==> parts == []
    ensures (&& response.candidates.Some?
             && |response.candidates.value| > 0
             && response.candidates.value[0].content.Some?
             && response.candidates.value[0].content.value.parts.Some?)
            ==> parts == response.candidates.value[0].content.value.parts.value
  {
    match Index(OrElse(response.candidates, []), 0)
    case None => []
    case Some(candidate) =>
      match candidate.content
      case None => []
      case Some(content) => OrElse(content.parts, [])
  }

  /** The position of the first part carrying inline data, or |parts| when
      there is none. */
  function FirstInlineIndex(parts: seq<ResponsePart>): (k: nat)
    ensures k <= |parts|
    ensures k < |parts| ==> parts[k].inlineData.Some?
    ensures forall j :: 0 <= j < k ==> parts[j].inlineData.None?
    decreases |parts|
  {
    if |parts| == 0 then 0
    else if parts[0].inlineData.Some? then 0
    else 1 + FirstInlineIndex(parts[1..])
  }

  /** The inline data of the first part that has any. */
  function FirstInline(parts: seq<ResponsePart>): (b: Option<Blob>)
    ensures b.None? <==> forall j :: 0 <= j < |parts| ==> parts[j].inlineData.None?
  {
    var k := FirstInlineIndex(parts);
    if k < |parts| then parts[k].inlineData else None
  }

  /** Parts after the first inline one are never consulted. */
  lemma {:induction false} FirstInlineIgnoresLater(parts: seq<ResponsePart>, later: seq<ResponsePart>)
    requires FirstInline(parts).Some?
    ensures FirstInline(parts + later) == FirstInline(parts)
    decreases |parts|
  {
    if parts[0].inlineData.None? {
      assert (parts + later)[1..] == parts[1..] + later;
      FirstInlineIgnoresLater(parts[1..], later);
    }
  }

  /** When no part has inline data the scan goes on into what follows. */
  lemma {:induction false} FirstInlineSkipsEmpty(parts: seq<ResponsePart>, later: seq<ResponsePart>)
    requires FirstInline(parts).None?
    ensures FirstInline(parts + later) == FirstInline(later)
    decreases |parts|
  {
    if |parts| > 0 {
      assert parts[0].inlineData.None?;
      assert (parts + later)[1..] == parts[1..] + later;
      FirstInlineSkipsEmpty(parts[1..], later);
    } else {
      assert parts + later == later;
    }
  }

  /** The `for ... of` loop with its early return. */
  method FindInlineData(parts: seq<ResponsePart>) returns (b: Option<Blob>)
    ensures b == FirstInline(parts)
  {
    var i := 0;
    while i < |parts|
      invariant 0 <= i <= |parts|
      invariant forall j :: 0 <= j < i ==> parts[j].inlineData.None?
    {
      if parts[i].inlineData.Some? {
        return parts[i].inlineData;
      }
      i := i + 1;
    }
    return None;
  }

  // ---------------------------------------------------------------------
  // The call

  /** `virtualTryOn(personFile, clothingFile)`. The body of the `try` either
      returns the first inline data or throws: the rejection of the call, or
      the "did not return an image" error. The `catch` then rethrows every
      `Error` with the failure prefix, so the no-image error is wrapped too,
      and replaces any other thrown value by a fixed `Error`. */
  method VirtualTryOn(personFile: File, personRead: ReaderResult,
                      clothingFile: File, clothingRead: ReaderResult,
                      api: Request -> Settled<Response>)
    returns (r: Settled<Option<string>>)
    ensures r.Rejected? ==> r.reason.ErrorObject? && r.reason.message != ""
    ensures var outcome := api(TryOnRequest(personFile, personRead, clothingFile, clothingRead));
      outcome.Resolved? && FirstInline(PartsOf(outcome.value)).Some? ==>
        r == Resolved(FirstInline(PartsOf(outcome.value)).value.data)
    ensures var outcome := api(TryOnRequest(personFile, personRead, clothingFile, clothingRead));
      outcome.Resolved? && FirstInline(PartsOf(outcome.value)).None? ==>
        r == Rejected(ErrorObject(FailurePrefix + NoImageMessage))
    ensures var outcome := api(TryOnRequest(personFile, personRead, clothingFile, clothingRead));
      outcome.Rejected? && outcome.reason.ErrorObject? ==>
        r == Rejected(ErrorObject(FailurePrefix + outcome.reason.message))
    ensures var outcome := api(TryOnRequest(personFile, personRead, clothingFile, clothingRead));
      outcome == Rejected(OtherValue) ==> r == Rejected(ErrorObject(UnexpectedMessage))
  {
    var caught: Thrown;
    // try
    var personPart := FileToGenerativePart(personFile, personRead);
    var clothingPart := FileToGenerativePart(clothingFile, clothingRead);
    var outcome := api(BuildRequest(personPart, clothingPart));
    match outcome {
      case Rejected(reason) =>
        caught := reason;
      case Resolved(response) =>
        var image := FindInlineData(PartsOf(response));
        if image.Some? {
          return Resolved(image.value.data);
        }
        caught := ErrorObject(NoImageMessage);
    }
    // catch
    if caught.ErrorObject? {
      r := Rejected(ErrorObject(FailurePrefix + caught.message));
    } else {
      r := Rejected(ErrorObject(UnexpectedMessage));
    }
  }
}
