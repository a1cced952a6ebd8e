/**
 * The client around the image model: the API-key check, MIME detection and prefix
 * stripping of the source data URI, the requests for editing and generating, the
 * extraction of the first inline image of the first candidate, and the error paths.
 * The SDK call is the parameter `send`; the key stands for process.env.API_KEY.
 */
module GeminiService {
  import opened Types

  const MissingKeyMessage := "API Key is missing. Please set process.env.API_KEY."
  const NoEditImageMessage := "No image data returned from Gemini."
  const NoGeneratedImageMessage := "No image generated."
  const EditModel := "gemini-2.5-flash-image"
  const GenerateModel := "gemini-3-pro-image-preview"
  const DefaultMimeType := "image/jpeg"
  const PngDataUriPrefix := "data:image/png;base64,"
  /** The fixed text before the captured subtype in ^data:(image\/[a-zA-Z]+);base64, */
  const DataImagePrefix := "data:image/"
  const Base64Marker := ";base64,"

  // ---------------------------------------------------------------- API key

  /** The client made from a present, non-empty key. */
  datatype Client = Client(apiKey: string)

  /** getAiClient: an absent or empty key is refused with the fixed message. */
  function GetAiClient(apiKey: Option<string>): (r: Outcome<Client>)
    ensures r.Err? <==> apiKey == None || apiKey == Some("")
    ensures r.Err? ==> r.message == MissingKeyMessage
    ensures r.Ok? ==> r.value.apiKey == apiKey.value
  {
    if apiKey == None || apiKey.value == "" then Err(MissingKeyMessage) else Ok(Client(apiKey.value))
  }

  // ---------------------------------------------------------------- data URI prefix

  predicate IsAsciiLetter(c: char) {
    'a' <= c <= 'z' || 'A' <= c <= 'Z'
  }

  /** The longest prefix of s made of ASCII letters: what [a-zA-Z]+ consumes greedily. */
  function LetterRun(s: string): (r: string)
    ensures |r| <= |s| && r == s[..|r|]
    ensures forall i :: 0 <= i < |r| ==> IsAsciiLetter(r[i])
    ensures |r| < |s| ==> !IsAsciiLetter(s[|r|])
  {
    if s != [] && IsAsciiLetter(s[0]) then [s[0]] + LetterRun(s[1..]) else []
  }

  /** The regular expression matches s with the subtype `letters` in its capture. */
  ghost predicate HasDataUriPrefix(s: string, letters: string) {
    && |letters| > 0
    && (forall i :: 0 <= i < |letters| ==> IsAsciiLetter(letters[i]))
    && |DataImagePrefix + letters + Base64Marker| <= |s|
    && s[..|DataImagePrefix + letters + Base64Marker|] == DataImagePrefix + letters + Base64Marker
  }

  /** base64Image.match(/^data:(image\/[a-zA-Z]+);base64,/): the letters after "image/", if it matches. */
  function MatchDataUri(s: string): Option<string> {
    if |s| >= |DataImagePrefix| && s[..|DataImagePrefix|] == DataImagePrefix then
      var rest := s[|DataImagePrefix|..];
      var letters := LetterRun(rest);
      var after := rest[|letters|..];
      if |letters| > 0 && |after| >= |Base64Marker| && after[..|Base64Marker|] == Base64Marker
      then Some(letters) else None
    else None
  }

  /** A letter run followed by a non-letter is exactly that run. */
  lemma {:induction false} LetterRunOfLettersThenOther(letters: string, tail: string)
    requires forall i :: 0 <= i < |letters| ==> IsAsciiLetter(letters[i])
    requires tail != [] && !IsAsciiLetter(tail[0])
    ensures LetterRun(letters + tail) == letters
  {
    if letters != [] {
      assert (letters + tail)[1..] == letters[1..] + tail;
      LetterRunOfLettersThenOther(letters[1..], tail);
    } else {
      assert letters + tail == tail;
    }
  }

  /** The matcher agrees with the regular expression, in both directions. */
  lemma MatchDataUriCorrect(s: string, letters: string)
    ensures MatchDataUri(s) == Some(letters) <==> HasDataUriPrefix(s, letters)
  {
    var n := |DataImagePrefix|;
    if HasDataUriPrefix(s, letters) {
      var p := DataImagePrefix + letters + Base64Marker;
      assert s[..n] == p[..n] == DataImagePrefix;
      var rest := s[n..];
      assert rest == letters + Base64Marker + s[|p|..];
      assert (Base64Marker + s[|p|..])[0] == ';';
      assert rest == letters + (Base64Marker + s[|p|..]);
      LetterRunOfLettersThenOther(letters, Base64Marker + s[|p|..]);
      assert rest[|letters|..] == Base64Marker + s[|p|..];
    }
    if MatchDataUri(s) == Some(letters) {
      var rest := s[n..];
      assert s == DataImagePrefix + rest;
      assert rest == letters + rest[|letters|..];
      var p := DataImagePrefix + letters + Base64Marker;
      assert s[..|p|] == p;
    }
  }

  /** The MIME type sent with the image: image/<letters> when the prefix matches, image/jpeg otherwise. */
  function MimeTypeOf(base64Image: string): (mime: string)
    ensures forall letters :: HasDataUriPrefix(base64Image, letters) ==> mime == "image/" + letters
    ensures (forall letters :: !HasDataUriPrefix(base64Image, letters)) ==> mime == DefaultMimeType
  {
    var m := MatchDataUri(base64Image);
    forall letters | HasDataUriPrefix(base64Image, letters) ensures m == Some(letters) {
      MatchDataUriCorrect(base64Image, letters);
    }
    if m.Some? then
      MatchDataUriCorrect(base64Image, m.value);
      "image/" + m.value
    else DefaultMimeType
  }

  /** The local `mimeType` of the edit call: starts at image/jpeg, replaced by the capture on a match. */
  method DetectMimeType(base64Image: string) returns (mimeType: string)
    ensures mimeType == MimeTypeOf(base64Image)
  {
    mimeType := DefaultMimeType;
    var captured := MatchDataUri(base64Image);
    if captured.Some? {
      mimeType := "image/" + captured.value;
    }
  }

  /** base64Image.replace of the same prefix by the empty string. */
  function StripDataUriPrefix(s: string): (r: string)
    ensures forall letters :: HasDataUriPrefix(s, letters) ==> DataImagePrefix + letters + Base64Marker + r == s
    ensures (forall letters :: !HasDataUriPrefix(s, letters)) ==> r == s
  {
    var m := MatchDataUri(s);
    forall letters | HasDataUriPrefix(s, letters) ensures m == Some(letters) {
      MatchDataUriCorrect(s, letters);
    }
    if m.Some? then
      MatchDataUriCorrect(s, m.value);
      var p := DataImagePrefix + m.value + Base64Marker;
      assert s == p + s[|p|..];
      s[|p|..]
    else s
  }

  /** The detected MIME type and the stripped payload put back together give the input again. */
  lemma MimeAndPayloadRoundTrip(s: string, letters: string)
    requires HasDataUriPrefix(s, letters)
    ensures "data:" + MimeTypeOf(s) + Base64Marker + StripDataUriPrefix(s) == s
  {
    assert "data:" + ("image/" + letters) == DataImagePrefix + letters;
  }

  // ---------------------------------------------------------------- requests and responses

  datatype AspectRatio = Ratio1x1 | Ratio3x4 | Ratio4x3 | Ratio9x16 | Ratio16x9
  datatype ImageSize = Size1K | Size2K | Size4K

  datatype RequestPart = InlineImage(data: string, mimeType: string) | TextPart(text: string)

  /** The edit asks for image output only; the generation carries an image configuration. */
  datatype RequestConfig = ImageModalityOnly | ImageConfig(aspectRatio: AspectRatio, imageSize: ImageSize)

  datatype Request = Request(model: string, parts: seq<RequestPart>, config: RequestConfig)

  datatype InlineData = InlineData(data: Option<string>, mimeType: Option<string>)
  datatype ResponsePart = ResponsePart(inlineData: Option<InlineData>, text: Option<string>)
  datatype Candidate = Candidate(parts: seq<ResponsePart>)
  datatype Response = Response(candidates: Option<seq<Candidate>>)

  /** What the SDK call did: it resolved to a response, or threw an error with this message. */
  datatype Reply = Responded(response: Response) | Threw(message: string)

  /** The request of the edit call: the stripped image with its MIME type, then the instruction. */
  function EditRequest(base64Image: string, prompt: string): Request {
    Request(EditModel, [InlineImage(StripDataUriPrefix(base64Image), MimeTypeOf(base64Image)), TextPart(prompt)],
            ImageModalityOnly)
  }

  /** The request of the generation call: the prompt alone, with aspect ratio and size. */
  function GenerateRequest(prompt: string, size: ImageSize, aspectRatio: AspectRatio): Request {
    Request(GenerateModel, [TextPart(prompt)], ImageConfig(aspectRatio, size))
  }

  /**
   * The image part of an edit request carries the whole input: a data URI goes out as its
   * payload with its own MIME type and nothing lost, anything else goes out unchanged as JPEG.
   */
  lemma EditRequestImagePart(base64Image: string, prompt: string, letters: string)
    ensures var img := EditRequest(base64Image, prompt).parts[0];
      HasDataUriPrefix(base64Image, letters) ==> "data:" + img.mimeType + Base64Marker + img.data == base64Image
    ensures var img := EditRequest(base64Image, prompt).parts[0];
      MatchDataUri(base64Image) == None ==> img.data == base64Image && img.mimeType == DefaultMimeType
  {
    if HasDataUriPrefix(base64Image, letters) {
      MimeAndPayloadRoundTrip(base64Image, letters);
    }
    forall l | true ensures MatchDataUri(base64Image) == None ==> !HasDataUriPrefix(base64Image, l) {
      MatchDataUriCorrect(base64Image, l);
    }
  }

  /** `part.inlineData && part.inlineData.data`: inline data with a non-empty payload. */
  predicate HasImageData(p: ResponsePart) {
    p.inlineData.Some? && p.inlineData.value.data.Some? && p.inlineData.value.data.value != ""
  }

  /** The index of the first part with image data, or -1. */
  function FirstImagePart(parts: seq<ResponsePart>): (k: int)
    ensures -1 <= k < |parts|
    ensures k == -1 <==> forall j :: 0 <= j < |parts| ==> !HasImageData(parts[j])
    ensures k >= 0 ==> HasImageData(parts[k]) && forall j :: 0 <= j < k ==> !HasImageData(parts[j])
  {
    if parts == [] then -1
    else if HasImageData(parts[0]) then 0
    else
      var k := FirstImagePart(parts[1..]);
      assert forall j :: 1 <= j < |parts| ==> parts[j] == parts[1..][j - 1];
      if k == -1 then -1 else k + 1
  }

  /** The parts of the first candidate, when there is one. */
  function FirstCandidateParts(resp: Response): seq<ResponsePart> {
    if resp.candidates.Some? && |resp.candidates.value| > 0 then resp.candidates.value[0].parts else []
  }

  /** The data URI the response yields: the first image part of the first candidate, labelled image/png. */
  function ImageFromResponse(resp: Response): Option<string> {
    var parts := FirstCandidateParts(resp);
    var k := FirstImagePart(parts);
    if k == -1 then None else Some(PngDataUriPrefix + parts[k].inlineData.value.data.value)
  }

  /** The extraction loop of both calls: returns at the first part with image data. */
  method ExtractImage(resp: Response) returns (image: Option<string>)
    ensures image == ImageFromResponse(resp)
  {
    var candidates := resp.candidates;
    if candidates.Some? && |candidates.value| > 0 {
      var parts := candidates.value[0].parts;
      for i := 0 to |parts|
        invariant forall j :: 0 <= j < i ==> !HasImageData(parts[j])
      {
        var part := parts[i];
        if part.inlineData.Some? && part.inlineData.value.data.Some? && part.inlineData.value.data.value != "" {
          return Some(PngDataUriPrefix + part.inlineData.value.data.value);
        }
      }
    }
    return None;
  }

  /** Only the first candidate is read: later candidates never change the result. */
  lemma OnlyFirstCandidateMatters(c: Candidate, rest1: seq<Candidate>, rest2: seq<Candidate>)
    ensures ImageFromResponse(Response(Some([c] + rest1))) == ImageFromResponse(Response(Some([c] + rest2)))
  {
  }

  /** Parts after the first image part are never read. */
  lemma {:induction false} PartsAfterImageIgnored(parts: seq<ResponsePart>, more: seq<ResponsePart>)
    requires FirstImagePart(parts) != -1
    ensures FirstImagePart(parts + more) == FirstImagePart(parts)
  {
    if !HasImageData(parts[0]) {
      assert (parts + more)[1..] == parts[1..] + more;
      PartsAfterImageIgnored(parts[1..], more);
    }
  }

  /** Every extracted image reads back as image/png, whatever the part's own MIME type says. */
  lemma ExtractedImageIsPng(resp: Response)
    requires ImageFromResponse(resp).Some?
    ensures var u := ImageFromResponse(resp).value;
      var parts := FirstCandidateParts(resp);
      && MimeTypeOf(u) == "image/png"
      && StripDataUriPrefix(u) == parts[FirstImagePart(parts)].inlineData.value.data.value
  {
    var u := ImageFromResponse(resp).value;
    var parts := FirstCandidateParts(resp);
    var d := parts[FirstImagePart(parts)].inlineData.value.data.value;
    assert u == DataImagePrefix + "png" + Base64Marker + d;
    assert HasDataUriPrefix(u, "png");
  }

  // ---------------------------------------------------------------- the two calls

  /** What editImageWithGemini resolves to or throws, given the key and the SDK's behaviour. */
  function EditOutcome(apiKey: Option<string>, base64Image: string, prompt: string, send: Request -> Reply): Outcome<string> {
    match GetAiClient(apiKey)
    case Err(m) => Err(m)
    case Ok(_) =>
      match send(EditRequest(base64Image, prompt))
      case Threw(m) => Err(m)
      case Responded(resp) =>
        match ImageFromResponse(resp)
        case Some(u) => Ok(u)
        case None => Err(NoEditImageMessage)
  }

  /** What generateImageWithGemini resolves to or throws. */
  function GenerateOutcome(apiKey: Option<string>, prompt: string, size: ImageSize, aspectRatio: AspectRatio,
                           send: Request -> Reply): Outcome<string> {
    match GetAiClient(apiKey)
    case Err(m) => Err(m)
    case Ok(_) =>
      match send(GenerateRequest(prompt, size, aspectRatio))
      case Threw(m) => Err(m)
      case Responded(resp) =>
        match ImageFromResponse(resp)
        case Some(u) => Ok(u)
        case None => Err(NoGeneratedImageMessage)
  }

  /** editImageWithGemini. */
  method EditImageWithGemini(apiKey: Option<string>, base64Image: string, prompt: string, send: Request -> Reply)
    returns (r: Outcome<string>)
    ensures r == EditOutcome(apiKey, base64Image, prompt, send)
  {
    var ai := GetAiClient(apiKey);
    if ai.Err? {
      return Err(ai.message);
    }
    var mimeType := DetectMimeType(base64Image);
    var cleanBase64 := StripDataUriPrefix(base64Image);
    var request := Request(EditModel, [InlineImage(cleanBase64, mimeType), TextPart(prompt)], ImageModalityOnly);
    var reply := send(request);
    if reply.Threw? {
      return Err(reply.message);
    }
    var image := ExtractImage(reply.response);
    if image.Some? {
      return Ok(image.value);
    }
    return Err(NoEditImageMessage);
  }

  /** generateImageWithGemini. */
  method GenerateImageWithGemini(apiKey: Option<string>, prompt: string, size: ImageSize, aspectRatio: AspectRatio,
                                 send: Request -> Reply)
    returns (r: Outcome<string>)
    ensures r == GenerateOutcome(apiKey, prompt, size, aspectRatio, send)
  {
    var ai := GetAiClient(apiKey);
    if ai.Err? {
      return Err(ai.message);
    }
    var request := Request(GenerateModel, [TextPart(prompt)], ImageConfig(aspectRatio, size));
    var reply := send(request);
    if reply.Threw? {
      return Err(reply.message);
    }
    var image := ExtractImage(reply.response);
    if image.Some? {
      return Ok(image.value);
    }
    return Err(NoGeneratedImageMessage);
  }

  /** A missing key fails both calls with the key message, whatever the service would have answered. */
  lemma MissingKeyFailsFirst(apiKey: Option<string>, base64Image: string, prompt: string, size: ImageSize,
                             aspectRatio: AspectRatio, send: Request -> Reply)
    requires apiKey == None || apiKey == Some("")
    ensures EditOutcome(apiKey, base64Image, prompt, send) == Err(MissingKeyMessage)
    ensures GenerateOutcome(apiKey, prompt, size, aspectRatio, send) == Err(MissingKeyMessage)
  {
  }

  /** With a key, an error thrown by the service reaches the caller with its message unchanged. */
  lemma UpstreamErrorRethrown(apiKey: string, base64Image: string, prompt: string, size: ImageSize,
                              aspectRatio: AspectRatio, send: Request -> Reply)
    requires apiKey != ""
    ensures send(EditRequest(base64Image, prompt)).Threw? ==>
      EditOutcome(Some(apiKey), base64Image, prompt, send) == Err(send(EditRequest(base64Image, prompt)).message)
    ensures send(GenerateRequest(prompt, size, aspectRatio)).Threw? ==>
      GenerateOutcome(Some(apiKey), prompt, size, aspectRatio, send)
        == Err(send(GenerateRequest(prompt, size, aspectRatio)).message)
  {
  }

  /**
   * With a key and a response, each call succeeds exactly when the first candidate has an
   * image part, and the success is a PNG data URI; otherwise it fails with its own message.
   */
  lemma ResponseDecidesOutcome(apiKey: string, base64Image: string, prompt: string, size: ImageSize,
                               aspectRatio: AspectRatio, send: Request -> Reply)
    requires apiKey != ""
    ensures send(EditRequest(base64Image, prompt)).Responded? ==>
      var resp := send(EditRequest(base64Image, prompt)).response;
      var r := EditOutcome(Some(apiKey), base64Image, prompt, send);
      && (r.Ok? <==> FirstImagePart(FirstCandidateParts(resp)) != -1)
      && (r.Ok? ==> MimeTypeOf(r.value) == "image/png")
      && (r.Err? ==> r.message == NoEditImageMessage)
    ensures send(GenerateRequest(prompt, size, aspectRatio)).Responded? ==>
      var resp := send(GenerateRequest(prompt, size, aspectRatio)).response;
      var r := GenerateOutcome(Some(apiKey), prompt, size, aspectRatio, send);
      && (r.Ok? <==> FirstImagePart(FirstCandidateParts(resp)) != -1)
      && (r.Ok? ==> MimeTypeOf(r.value) == "image/png")
      && (r.Err? ==> r.message == NoGeneratedImageMessage)
  {
    var editReply := send(EditRequest(base64Image, prompt));
    if editReply.Responded? && ImageFromResponse(editReply.response).Some? {
      ExtractedImageIsPng(editReply.response);
    }
    var genReply := send(GenerateRequest(prompt, size, aspectRatio));
    if genReply.Responded? && ImageFromResponse(genReply.response).Some? {
      ExtractedImageIsPng(genReply.response);
    }
  }
}
