/** The offline script that asks the image model for a "before" and an "after" demo
    picture and writes each to a PNG file: the scan of the response parts for the first
    inline image and the control flow that stops at the first failure. */
module DemoImages {
  import opened Wrappers
  import Base64

  /** What `part.inline_data.data` holds: raw bytes, text that is already base64, or
      nothing at all. */
  datatype Payload = RawBytes(bytes: seq<Base64.Byte>) | EncodedText(text: string) | NoData

  /** One part of a model response; `inlineData` is None for a text-only part. */
  datatype Part = Part(text: Option<string>, inlineData: Option<Payload>)

  /** What the model call gave back: it raised, or it answered with `response.parts`,
      which is None when the response has no candidate content. */
  datatype ModelReply = ModelRaised | Answered(parts: Option<seq<Part>>)

  datatype Shot = Before | After

  /** What happened to one picture: written with these bytes, not produced (no inline
      part, or an empty/None payload), or the script raised. */
  datatype ShotOutcome = Saved(bytes: seq<Base64.Byte>) | NotProduced | Raised

  datatype ScriptResult = MissingApiKey | BeforeFailed | AfterFailed | ScriptRaised | Done

  const BeforePath: string := "/app/frontend/public/demo/before.png"
  const AfterPath: string := "/app/frontend/public/demo/after.png"

  /** The text the script keeps for an inline payload: bytes are base64-encoded, text is
      passed through, and a missing payload leaves nothing. Encoded bytes decode back
      both strictly and with the b64decode the script calls. */
  function Normalize(p: Payload): (s: Option<string>)
    ensures p.RawBytes? ==> s.Some? && Base64.Decode(s.value) == Some(p.bytes)
    ensures p.RawBytes? ==> Base64.LenientDecode(s.value) == Some(p.bytes)
    ensures p.EncodedText? ==> s == Some(p.text)
    ensures p.NoData? ==> s.None?
  {
    match p
    case RawBytes(b) => Base64.DecodeEncode(b); Base64.LenientDecodeEncode(b); Some(Base64.Encode(b))
    case EncodedText(t) => Some(t)
    case NoData => None
  }

  /** Index i holds the first part that carries inline data. */
  predicate FirstWithImage(parts: seq<Part>, i: int) {
    0 <= i < |parts| && parts[i].inlineData.Some? &&
    forall j :: 0 <= j < i ==> parts[j].inlineData.None?
  }

  /** The value the extraction loop leaves behind, as a function of the parts. */
  function FirstImage(parts: seq<Part>): Option<string>
    decreases |parts|
  {
    if |parts| == 0 then None
    else if parts[0].inlineData.Some? then Normalize(parts[0].inlineData.value)
    else FirstImage(parts[1..])
  }

  /** The first inline part decides the result. */
  lemma {:induction false} FirstImageAt(parts: seq<Part>, i: int)
    requires FirstWithImage(parts, i)
    ensures FirstImage(parts) == Normalize(parts[i].inlineData.value)
    decreases |parts|
  {
    if i > 0 {
      FirstImageAt(parts[1..], i - 1);
    }
  }

  /** With no inline part there is no image. */
  lemma {:induction false} FirstImageNone(parts: seq<Part>)
    requires forall j :: 0 <= j < |parts| ==> parts[j].inlineData.None?
    ensures FirstImage(parts) == None
    decreases |parts|
  {
    if |parts| > 0 {
      FirstImageNone(parts[1..]);
    }
  }

  /** Parts after the first inline one are never looked at: replacing them changes nothing. */
  lemma IgnoresLaterParts(parts: seq<Part>, i: int, later: seq<Part>)
    requires FirstWithImage(parts, i)
    ensures FirstImage(parts[..i + 1] + later) == FirstImage(parts)
  {
    var p := parts[..i + 1] + later;
    assert p[i] == parts[i];
    assert FirstWithImage(p, i);
    FirstImageAt(p, i);
    FirstImageAt(parts, i);
  }

  /** The for-loop over `response.parts` that stops at the first part with inline data. */
  method ExtractImage(parts: seq<Part>) returns (image: Option<string>)
    ensures image == FirstImage(parts)
  {
    image := None;
    var k := 0;
    while k < |parts|
      invariant 0 <= k <= |parts|
      invariant FirstImage(parts) == FirstImage(parts[k..])
      invariant image == None
    {
      assert parts[k..][1..] == parts[k + 1..];
      if parts[k].inlineData.Some? {
        image := Normalize(parts[k].inlineData.value);
        return;
      }
      k := k + 1;
    }
  }

  /** What one generation step ends with, as a function of the model's reply. */
  function Outcome(reply: ModelReply): ShotOutcome {
    match reply
    case ModelRaised => Raised
    case Answered(None) => Raised
    case Answered(Some(parts)) =>
      var image := FirstImage(parts);
      if !Truthy(image) then NotProduced
      else match Base64.LenientDecode(image.value)
        case None => Raised
        case Some(b) => Saved(b)
  }

  /** When the first inline part carries non-empty raw bytes, exactly those bytes are
      written: encoding and then decoding them loses nothing. */
  lemma RawBytesAreWrittenBack(parts: seq<Part>, i: int)
    requires FirstWithImage(parts, i)
    requires parts[i].inlineData.value.RawBytes? && |parts[i].inlineData.value.bytes| > 0
    ensures Outcome(Answered(Some(parts))) == Saved(parts[i].inlineData.value.bytes)
  {
    var b := parts[i].inlineData.value.bytes;
    FirstImageAt(parts, i);
    Base64.EncodeLength(b);
  }

  /** An inline part whose raw payload is empty encodes to "", which the script treats
      like a missing image. */
  lemma EmptyBytesAreNotProduced(parts: seq<Part>, i: int)
    requires FirstWithImage(parts, i)
    requires parts[i].inlineData.value == RawBytes([])
    ensures Outcome(Answered(Some(parts))) == NotProduced
  {
    FirstImageAt(parts, i);
  }

  /** A response without any inline part produces no picture. */
  lemma TextOnlyIsNotProduced(parts: seq<Part>)
    requires forall j :: 0 <= j < |parts| ==> parts[j].inlineData.None?
    ensures Outcome(Answered(Some(parts))) == NotProduced
  {
    FirstImageNone(parts);
  }

  /** One step of the script: read the reply, extract, decode and write. */
  method GenerateShot(reply: ModelReply) returns (outcome: ShotOutcome)
    ensures outcome == Outcome(reply)
  {
    if reply.ModelRaised? || reply.parts.None? {
      return Raised;
    }
    var image := ExtractImage(reply.parts.value);
    if image.Some? && image.value != "" {
      var bytes := Base64.LenientDecode(image.value);
      if bytes.None? {
        return Raised;
      }
      outcome := Saved(bytes.value);
    } else {
      outcome := NotProduced;
    }
  }

  /** The whole script. `requested` lists the pictures asked of the model, in order, and
      `written` the files written, in order. */
  method GenerateDemoImages(apiKey: Option<string>, beforeReply: ModelReply, afterReply: ModelReply)
    returns (result: ScriptResult, requested: seq<Shot>, written: seq<(string, seq<Base64.Byte>)>)
    ensures result == MissingApiKey <==> !Truthy(apiKey)
    ensures result == MissingApiKey ==> requested == [] && written == []
    ensures Truthy(apiKey) ==>
      && |requested| >= 1 && requested[0] == Before
      && (requested == [Before, After] <==> Outcome(beforeReply).Saved?)
      && (requested == [Before] <==> !Outcome(beforeReply).Saved?)
    ensures result == Done <==>
      Truthy(apiKey) && Outcome(beforeReply).Saved? && Outcome(afterReply).Saved?
    ensures result == Done ==>
      written == [(BeforePath, Outcome(beforeReply).bytes), (AfterPath, Outcome(afterReply).bytes)]
    ensures result == BeforeFailed <==> Truthy(apiKey) && Outcome(beforeReply) == NotProduced
    ensures result == BeforeFailed ==> written == []
    ensures result == AfterFailed <==>
      Truthy(apiKey) && Outcome(beforeReply).Saved? && Outcome(afterReply) == NotProduced
    ensures result == AfterFailed ==> written == [(BeforePath, Outcome(beforeReply).bytes)]
    ensures result == ScriptRaised <==>
      Truthy(apiKey) &&
      (Outcome(beforeReply).Raised? || (Outcome(beforeReply).Saved? && Outcome(afterReply).Raised?))
    ensures result == ScriptRaised ==>
      written == if Outcome(beforeReply).Saved? then [(BeforePath, Outcome(beforeReply).bytes)] else []
  {
    requested, written := [], [];
    if !Truthy(apiKey) {
      return MissingApiKey, requested, written;
    }
    requested := requested + [Before];
    var before := GenerateShot(beforeReply);
    match before {
      case Raised => return ScriptRaised, requested, written;
      case NotProduced => return BeforeFailed, requested, written;
      case Saved(b) => written := written + [(BeforePath, b)];
    }
    requested := requested + [After];
    var after := GenerateShot(afterReply);
    match after {
      case Raised => return ScriptRaised, requested, written;
      case NotProduced => return AfterFailed, requested, written;
      case Saved(b) => written := written + [(AfterPath, b)];
    }
    result := Done;
  }
}
