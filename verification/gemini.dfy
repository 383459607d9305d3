/** The two remote calls of the service besides the prompt rebuild: the
    preview image request with its error classifier, and the key probe.
    The remote model is a parameter: a function from request to reply. */
module Gemini {
  import opened Wrappers
  import opened Text

  // ---------------------------------------------------------------------
  // Preview image.
  // ---------------------------------------------------------------------

  /** What the image call asks for: the model, the text parts of the
      content, and the image configuration. */
  datatype ImageRequest = ImageRequest(
    model: string,
    parts: seq<string>,
    aspectRatio: string,
    imageSize: string)

  /** Inline data of a response part; `data` may be missing. */
  datatype InlineData = InlineData(data: Option<string>)

  /** A response part, with or without inline data. */
  datatype Part = Part(inlineData: Option<InlineData>)

  /** A candidate; a candidate without content, or content without parts,
      is a candidate with no parts. */
  datatype Candidate = Candidate(parts: seq<Part>)

  /** The image model's response; missing candidates are no candidates. */
  datatype ImageResponse = ImageResponse(candidates: seq<Candidate>)

  /** The outcome of the image call: a response, or a thrown error whose
      `message` may be missing. */
  datatype ImageReply = Responded(response: ImageResponse) | Threw(message: Option<string>)

  const ImageModel := "gemini-3-pro-image-preview"
  const DataUriPrefix := "data:image/png;base64,"

  /** The request for a prompt: the prompt as the only part, a 9:16 portrait
      picture at 2K. */
  function ImageRequestFor(prompt: string): (q: ImageRequest)
    ensures q.parts == [prompt] && q.model == ImageModel
    ensures q.aspectRatio == "9:16" && q.imageSize == "2K"
  {
    ImageRequest(ImageModel, [prompt], "9:16", "2K")
  }

  /** The parts the loop walks: those of the first candidate, if any. */
  function FirstCandidateParts(r: ImageResponse): (parts: seq<Part>)
    ensures |r.candidates| == 0 ==> parts == []
    ensures |r.candidates| > 0 ==> parts == r.candidates[0].parts
  {
    if |r.candidates| == 0 then [] else r.candidates[0].parts
  }

  /** Index of the first part carrying inline data. */
  function FirstInline(parts: seq<Part>): (r: Option<nat>)
    ensures r.Some? ==> r.value < |parts| && parts[r.value].inlineData.Some?
    ensures r.Some? ==> forall j :: 0 <= j < r.value ==> parts[j].inlineData.None?
    ensures r.None? <==> forall j :: 0 <= j < |parts| ==> parts[j].inlineData.None?
  {
    if |parts| == 0 then None
    else if parts[0].inlineData.Some? then Some(0)
    else match FirstInline(parts[1..])
      case None => None
      case Some(k) => Some(k + 1)
  }

  /** The data as a template literal prints it: a missing value reads
      "undefined". */
  function DataText(d: InlineData): (text: string)
    ensures d.data.Some? ==> text == d.data.value
    ensures d.data.None? ==> text == "undefined"
  {
    d.data.GetOr("undefined")
  }

  /** The image the response holds: a PNG data URI built from the first part
      of the first candidate that has inline data, or nothing. */
  function ImageUri(r: ImageResponse): (uri: Option<string>)
    ensures |r.candidates| == 0 ==> uri.None?
    ensures uri.Some? <==> exists j :: 0 <= j < |FirstCandidateParts(r)|
                                       && FirstCandidateParts(r)[j].inlineData.Some?
    ensures uri.Some? ==>
      var k := FirstInline(FirstCandidateParts(r)).value;
      uri.value == DataUriPrefix + DataText(FirstCandidateParts(r)[k].inlineData.value)
  {
    var parts := FirstCandidateParts(r);
    match FirstInline(parts)
    case None => None
    case Some(k) => Some(DataUriPrefix + DataText(parts[k].inlineData.value))
  }

  /** The loop of the source, walking the parts in order and returning at
      the first one with inline data; it agrees with `ImageUri`. */
  method ScanParts(r: ImageResponse) returns (uri: Option<string>)
    ensures uri == ImageUri(r)
    ensures uri.Some? ==> At(uri.value, 0, DataUriPrefix)
  {
    var parts := FirstCandidateParts(r);
    var i := 0;
    while i < |parts|
      invariant 0 <= i <= |parts|
      invariant forall j :: 0 <= j < i ==> parts[j].inlineData.None?
    {
      if parts[i].inlineData.Some? {
        assert FirstInline(parts) == Some(i) by { FirstInlineIs(parts, i); }
        uri := Some(DataUriPrefix + DataText(parts[i].inlineData.value));
        AtPrefix(DataUriPrefix, DataText(parts[i].inlineData.value));
        return;
      }
      i := i + 1;
    }
    uri := None;
  }

  /** A part with inline data preceded only by parts without is the first. */
  lemma {:induction false} FirstInlineIs(parts: seq<Part>, i: nat)
    requires i < |parts| && parts[i].inlineData.Some?
    requires forall j :: 0 <= j < i ==> parts[j].inlineData.None?
    ensures FirstInline(parts) == Some(i)
  {
    if i > 0 {
      FirstInlineIs(parts[1..], i - 1);
    }
  }

  // The fixed explanations, written in short pieces so that the proofs
  // below can look at each piece's characters.
  const DefaultImageError := "Image generation" + " failed."
  const AccessDenied := "Access denied." + " Gemini 3 Pro" + " requires" + " a paid/" + "allowlisted" + " API key."
  const ModelNotFound := "Model not found" + " or not available" + " in your region."
  const QuotaExceeded := "Quota exceeded." + " Please try" + " again later."
  const SafetyBlocked := "Image blocked" + " by safety filters."

  /** The message of the error the image call rethrows. A missing or empty
      message gives the default; otherwise the first of "403", "404",
      "429", "SAFETY" the message contains picks a fixed explanation, and a
      message with none of them is passed on unchanged. */
  function ClassifyImageError(message: Option<string>): (r: string)
    ensures message.None? || message.value == "" ==> r == DefaultImageError
    ensures message.Some? && message.value != "" ==>
      var m := message.value;
      && (Contains(m, "403") ==> r == AccessDenied)
      && (!Contains(m, "403") && Contains(m, "404") ==> r == ModelNotFound)
      && (!Contains(m, "403") && !Contains(m, "404") && Contains(m, "429") ==> r == QuotaExceeded)
      && ((!Contains(m, "403") && !Contains(m, "404") && !Contains(m, "429")
           && Contains(m, "SAFETY")) ==> r == SafetyBlocked)
      && ((!Contains(m, "403") && !Contains(m, "404") && !Contains(m, "429")
           && !Contains(m, "SAFETY")) ==> r == m)
  {
    match message
    case None => DefaultImageError
    case Some(m) =>
      if m == "" then DefaultImageError
      else if Contains(m, "403") then AccessDenied
      else if Contains(m, "404") then ModelNotFound
      else if Contains(m, "429") then QuotaExceeded
      else if Contains(m, "SAFETY") then SafetyBlocked
      else m
  }

  /** The fixed explanations the classifier can give. */
  predicate IsExplanation(s: string) {
    s == DefaultImageError || s == AccessDenied || s == ModelNotFound
    || s == QuotaExceeded || s == SafetyBlocked
  }

  /** Neither '4' nor 'S' occurs: such a text contains none of the keys. */
  predicate KeyFree(s: string) {
    '4' !in s && 'S' !in s
  }

  lemma KeyFreeJoin(a: string, b: string)
    requires KeyFree(a) && KeyFree(b)
    ensures KeyFree(a + b)
  {
  }

  /** A text without the first character of `t` does not contain `t`. */
  lemma LacksFirst(s: string, t: string)
    requires |t| > 0 && t[0] !in s
    ensures !Contains(s, t)
  {
    forall i | 0 <= i <= |s| - |t|
      ensures !At(s, i, t)
    {
      assert t[0] == t[..|t|][0];
    }
  }

  lemma DefaultKeyFree()
    ensures KeyFree(DefaultImageError)
  {
    var a, b := "Image generation", " failed.";
    assert KeyFree(a) && KeyFree(b);
    KeyFreeJoin(a, b);
  }

  lemma AccessDeniedKeyFree()
    ensures KeyFree(AccessDenied)
  {
    var a, b, c := "Access denied.", " Gemini 3 Pro", " requires";
    var d, e, f := " a paid/", "allowlisted", " API key.";
    assert KeyFree(a);
    assert KeyFree(b);
    assert KeyFree(c);
    assert KeyFree(d);
    assert KeyFree(e);
    assert KeyFree(f);
    KeyFreeJoin(a, b);
    KeyFreeJoin(a + b, c);
    KeyFreeJoin(a + b + c, d);
    KeyFreeJoin(a + b + c + d, e);
    KeyFreeJoin(a + b + c + d + e, f);
  }

  lemma ModelNotFoundKeyFree()
    ensures KeyFree(ModelNotFound)
  {
    var a, b, c := "Model not found", " or not available", " in your region.";
    assert KeyFree(a) && KeyFree(b) && KeyFree(c);
    KeyFreeJoin(a, b);
    KeyFreeJoin(a + b, c);
  }

  lemma QuotaExceededKeyFree()
    ensures KeyFree(QuotaExceeded)
  {
    var a, b, c := "Quota exceeded.", " Please try", " again later.";
    assert KeyFree(a) && KeyFree(b) && KeyFree(c);
    KeyFreeJoin(a, b);
    KeyFreeJoin(a + b, c);
  }

  lemma SafetyBlockedKeyFree()
    ensures KeyFree(SafetyBlocked)
  {
    var a, b := "Image blocked", " by safety filters.";
    assert KeyFree(a) && KeyFree(b);
    KeyFreeJoin(a, b);
  }

  /** No explanation contains any of the four keys. */
  lemma ExplanationsHaveNoKey(s: string)
    requires IsExplanation(s)
    ensures !Contains(s, "403") && !Contains(s, "404")
    ensures !Contains(s, "429") && !Contains(s, "SAFETY")
  {
    DefaultKeyFree();
    AccessDeniedKeyFree();
    ModelNotFoundKeyFree();
    QuotaExceededKeyFree();
    SafetyBlockedKeyFree();
    LacksFirst(s, "403");
    LacksFirst(s, "404");
    LacksFirst(s, "429");
    LacksFirst(s, "SAFETY");
  }

  /** The classified message is never empty, is one of the fixed
      explanations or the original message, and classifying it again
      changes nothing: catching and rethrowing is stable. */
  lemma ClassifyStable(message: Option<string>)
    ensures ClassifyImageError(message) != ""
    ensures IsExplanation(ClassifyImageError(message))
            || (message.Some? && ClassifyImageError(message) == message.value)
    ensures ClassifyImageError(Some(ClassifyImageError(message))) == ClassifyImageError(message)
  {
    var r := ClassifyImageError(message);
    if IsExplanation(r) {
      ExplanationsHaveNoKey(r);
    }
  }

  /** The keys the classifier looks for, in the order it tries them, each
      with the explanation it gives. */
  const Keys: seq<(string, string)> :=
    [("403", AccessDenied), ("404", ModelNotFound), ("429", QuotaExceeded), ("SAFETY", SafetyBlocked)]

  /** The explanation of the first key of `keys` that `m` contains, if any. */
  function FirstKeyExplanation(m: string, keys: seq<(string, string)>): (r: Option<string>)
    ensures r.None? <==> forall i :: 0 <= i < |keys| ==> !Contains(m, keys[i].0)
    ensures r.Some? ==> exists i :: 0 <= i < |keys| && Contains(m, keys[i].0) && r.value == keys[i].1
                                    && forall j :: 0 <= j < i ==> !Contains(m, keys[j].0)
  {
    if |keys| == 0 then None
    else if Contains(m, keys[0].0) then Some(keys[0].1)
    else
      var r := FirstKeyExplanation(m, keys[1..]);
      assert forall i :: 1 <= i < |keys| ==> keys[i] == keys[1..][i - 1];
      r
  }

  /** The classifier is the table lookup: a non-empty message gets the
      explanation of the first key it contains, in the order of `Keys`
      whatever the order of the keys inside the message, and is passed on
      when it contains none. */
  lemma ClassifyByKeys(m: string)
    requires m != ""
    ensures ClassifyImageError(Some(m)) == FirstKeyExplanation(m, Keys).GetOr(m)
  {
    var k1 := Keys[1..];
    var k2 := k1[1..];
    var k3 := k2[1..];
    assert k1 == [("404", ModelNotFound), ("429", QuotaExceeded), ("SAFETY", SafetyBlocked)];
    assert k2 == [("429", QuotaExceeded), ("SAFETY", SafetyBlocked)];
    assert k3 == [("SAFETY", SafetyBlocked)];
    assert FirstKeyExplanation(m, k3[1..]) == None;
    assert FirstKeyExplanation(m, Keys)
        == (if Contains(m, "403") then Some(AccessDenied) else FirstKeyExplanation(m, k1));
    assert FirstKeyExplanation(m, k1)
        == (if Contains(m, "404") then Some(ModelNotFound) else FirstKeyExplanation(m, k2));
    assert FirstKeyExplanation(m, k2)
        == (if Contains(m, "429") then Some(QuotaExceeded) else FirstKeyExplanation(m, k3));
    assert FirstKeyExplanation(m, k3)
        == (if Contains(m, "SAFETY") then Some(SafetyBlocked) else None);
  }

  /** "403" wins over every key checked after it, wherever they stand in
      the message: "429 then 403" is an access error, not a quota one. */
  lemma AccessDeniedFirst(m: string)
    ensures Contains(m, "403") ==> ClassifyImageError(Some(m)) == AccessDenied
    ensures Contains(m, "403") && (Contains(m, "404") || Contains(m, "429") || Contains(m, "SAFETY"))
            ==> ClassifyImageError(Some(m)) == AccessDenied
    ensures ClassifyImageError(Some("429 then 403")) == AccessDenied
  {
    var e := "429 then 403";
    assert At(e, 9, "403");
    AtContains(e, 9, "403");
  }

  /** `generateWebtoonPreviewImage`: sends `ImageRequestFor(prompt)`. A
      thrown error becomes `Err` with the classified, never empty message;
      a response gives the data URI of its first inline image, or nothing
      when the first candidate has no part with inline data. */
  function GenerateImage(prompt: string, model: ImageRequest -> ImageReply)
    : (r: Result<Option<string>, string>)
    ensures model(ImageRequestFor(prompt)).Threw? ==>
      && r == Err(ClassifyImageError(model(ImageRequestFor(prompt)).message))
      && r.error != ""
    ensures model(ImageRequestFor(prompt)).Responded? ==>
      && r.Ok?
      && r.value == ImageUri(model(ImageRequestFor(prompt)).response)
  {
    match model(ImageRequestFor(prompt))
    case Threw(message) =>
      ClassifyStable(message);
      Err(ClassifyImageError(message))
    case Responded(response) => Ok(ImageUri(response))
  }

  // ---------------------------------------------------------------------
  // Key probe.
  // ---------------------------------------------------------------------

  /** The probe: a text request of "hi" capped at one output token. */
  datatype ProbeRequest = ProbeRequest(model: string, text: string, maxOutputTokens: nat)

  const KeyProbe := ProbeRequest("gemini-3-flash-preview", "hi", 1)

  /** The outcome of a remote call whose answer is not used. */
  datatype ProbeReply = Accepted | Rejected(message: string)

  /** `verifyApiKey`: the key is valid exactly when the probe sent with it
      is answered; every error, whatever its message, counts as invalid. */
  function VerifyApiKey(key: string, send: (string, ProbeRequest) -> ProbeReply): (valid: bool)
    ensures valid <==> send(key, KeyProbe).Accepted?
    ensures !valid <==> exists m :: send(key, KeyProbe) == Rejected(m)
  {
    match send(key, KeyProbe)
    case Accepted => true
    case Rejected(_) => false
  }
}
