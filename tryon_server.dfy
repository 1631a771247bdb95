/** The backend API: the try-on endpoint that sends the person and clothing pictures to
    the image model and stores the result, the lookup of a stored try-on, and the status
    check endpoints. The model call and the document store are inputs: the model's reply
    (or the exception it raised) and the outcome of each store write are parameters, and
    the collections are sequences in insertion order. */
module TryOnServer {
  import opened Wrappers

  /** An HTTPException: the status code and the `detail` sent to the client. */
  datatype HttpError = HttpError(status: int, detail: string)

  /** An exception raised inside the endpoint: an HTTPException, or any other exception
      with its `str(e)`. */
  datatype Raised = HttpRaised(error: HttpError) | OtherRaised(message: string)

  datatype TryOnRequest = TryOnRequest(personImage: string, clothingImage: string)

  /** The message sent to the model: the instruction and the images, in order. */
  datatype UserMessage = UserMessage(text: string, fileContents: seq<string>)

  /** One image dict of the model's reply; `data` is None when the dict has no 'data' key. */
  datatype GeneratedImage = GeneratedImage(data: Option<string>)

  /** What `send_message_multimodal_response` does: it returns (text, images), where the
      image list may be None, or it raises. */
  datatype ModelReply = Replied(text: Option<string>, images: Option<seq<GeneratedImage>>) | ModelRaised(message: string)

  /** What an `insert_one` does: it writes the document, or it raises. */
  datatype StoreWrite = Written | WriteRaised(message: string)

  datatype TryOnRecord = TryOnRecord(id: string, personImage: string, clothingImage: string,
                                     resultImage: string, timestamp: int, status: string)

  datatype TryOnResponse = TryOnResponse(id: string, resultImage: string, timestamp: int, status: string)

  datatype StatusCheck = StatusCheck(id: string, clientName: string, timestamp: int)

  const KeyMissingDetail: string := "Gemini API key not configured"
  const NoImageDetail: string := "Failed to generate try-on image. No image was returned from the AI model."
  const FailurePrefix: string := "Failed to process try-on request: "
  const NotFoundDetail: string := "Try-on not found"
  const InternalErrorDetail: string := "Internal Server Error"
  const Completed: string := "completed"
  const StatusChecksLimit: nat := 1000
  /** `str(KeyError('data'))`, raised when the first image dict has no 'data' key. */
  const MissingDataKey: string := "'data'"
  const Instruction: string := "Take the person from the first image and dress them in the clothing item shown in the second image. Make it look realistic, natural, and professionally styled. Ensure the clothing fits naturally on the person's body, maintaining proper proportions and lighting. Generate a high-quality portrait-style image."

  /** The two `except` clauses: an HTTPException goes out unchanged, anything else
      becomes a 500 whose detail carries the exception text after a fixed prefix. */
  function Translate(e: Raised): (r: HttpError)
    ensures e.HttpRaised? ==> r == e.error
    ensures e.OtherRaised? ==>
      r.status == 500 && FailurePrefix <= r.detail && r.detail[|FailurePrefix|..] == e.message
  {
    match e
    case HttpRaised(err) => err
    case OtherRaised(m) => HttpError(500, FailurePrefix + m)
  }

  /** The base64 text of the first generated image; later images are never looked at. */
  function FirstImageData(images: Option<seq<GeneratedImage>>): (r: Result<string, Raised>)
    ensures r == Failure(HttpRaised(HttpError(500, NoImageDetail))) <==> images.None? || |images.value| == 0
    ensures r.Success? <==> images.Some? && |images.value| > 0 && images.value[0].data.Some?
    ensures r.Success? ==> r.value == images.value[0].data.value
    ensures images.Some? && |images.value| > 0 && images.value[0].data.None? ==>
      r == Failure(OtherRaised(MissingDataKey))
  {
    if images.None? || |images.value| == 0 then Failure(HttpRaised(HttpError(500, NoImageDetail)))
    else if images.value[0].data.None? then Failure(OtherRaised(MissingDataKey))
    else Success(images.value[0].data.value)
  }

  /** The only error shapes the try-on endpoint answers with. */
  predicate TryOnErrorShape(e: HttpError) {
    e.status == 500 &&
    (e.detail == KeyMissingDetail || e.detail == NoImageDetail ||
     FailurePrefix <= e.detail)
  }

  /** `find_one({"id": tryonId})`: the position of the first stored try-on with that id. */
  function FindTryOn(tryons: seq<TryOnRecord>, tryonId: string): (k: Option<nat>)
    ensures k.None? <==> forall j :: 0 <= j < |tryons| ==> tryons[j].id != tryonId
    ensures k.Some? ==>
      && k.value < |tryons| && tryons[k.value].id == tryonId
      && forall j :: 0 <= j < k.value ==> tryons[j].id != tryonId
    decreases |tryons|
  {
    if |tryons| == 0 then None
    else if tryons[0].id == tryonId then Some(0)
    else match FindTryOn(tryons[1..], tryonId)
      case None => None
      case Some(k) => Some(k + 1)
  }

  /** The TryOnResponse built from a stored record: its id, result, timestamp and status. */
  function ResponseOf(t: TryOnRecord): TryOnResponse {
    TryOnResponse(t.id, t.resultImage, t.timestamp, t.status)
  }

  /** get_tryon: the first stored try-on with the id, 404 when there is none, and a 500
      carrying the store's error text when the lookup itself raised. */
  function GetTryOn(tryons: seq<TryOnRecord>, tryonId: string, lookupFailure: Option<string>)
    : (r: Result<TryOnResponse, HttpError>)
    ensures lookupFailure.Some? ==> r == Failure(HttpError(500, lookupFailure.value))
    ensures lookupFailure.None? ==>
      (r == Failure(HttpError(404, NotFoundDetail)) <==> forall j :: 0 <= j < |tryons| ==> tryons[j].id != tryonId)
    ensures lookupFailure.None? ==>
      (r.Success? <==> exists k :: 0 <= k < |tryons| && tryons[k].id == tryonId)
    ensures lookupFailure.None? && r.Success? ==>
      exists k :: 0 <= k < |tryons| && tryons[k].id == tryonId && r.value == ResponseOf(tryons[k]) &&
        forall j :: 0 <= j < k ==> tryons[j].id != tryonId
  {
    if lookupFailure.Some? then Failure(HttpError(500, lookupFailure.value))
    else match FindTryOn(tryons, tryonId)
      case None => Failure(HttpError(404, NotFoundDetail))
      case Some(k) => Success(ResponseOf(tryons[k]))
  }

  /** A try-on stored under an id no earlier record uses is what a later lookup of that
      id returns. */
  lemma StoredTryOnIsFound(tryons: seq<TryOnRecord>, t: TryOnRecord)
    requires forall j :: 0 <= j < |tryons| ==> tryons[j].id != t.id
    ensures GetTryOn(tryons + [t], t.id, None) == Success(ResponseOf(t))
  {
    var all := tryons + [t];
    assert all[|tryons|].id == t.id;
    assert forall j :: 0 <= j < |tryons| ==> all[j] == tryons[j];
    assert FindTryOn(all, t.id) == Some(|tryons|);
  }

  /** Storing a try-on changes no other lookup, and none for an id that was already
      stored: find_one returns the earliest record. */
  lemma OtherLookupsUnchanged(tryons: seq<TryOnRecord>, t: TryOnRecord, tryonId: string)
    requires tryonId != t.id || exists j :: 0 <= j < |tryons| && tryons[j].id == tryonId
    ensures GetTryOn(tryons + [t], tryonId, None) == GetTryOn(tryons, tryonId, None)
  {
    var all := tryons + [t];
    var k, k' := FindTryOn(all, tryonId), FindTryOn(tryons, tryonId);
    forall j | 0 <= j < |tryons| ensures all[j] == tryons[j] { }
    if k'.Some? {
      assert all[k'.value].id == tryonId;
      assert k.Some? && k.value <= k'.value;
      assert k.value == k'.value;
    } else {
      assert all[|tryons|] == t;
      assert k.None?;
    }
  }

  /** get_status_checks: the stored status checks in order, at most 1000 of them. */
  function GetStatusChecks(checks: seq<StatusCheck>): (r: seq<StatusCheck>)
    ensures |r| <= StatusChecksLimit && |r| <= |checks|
    ensures r == checks[..|r|]
    ensures |checks| <= StatusChecksLimit ==> r == checks
    ensures |checks| > StatusChecksLimit ==> |r| == StatusChecksLimit
  {
    if |checks| <= StatusChecksLimit then checks else checks[..StatusChecksLimit]
  }

  /** The backend's two document collections, `tryons` and `status_checks`. */
  class Backend {
    var tryons: seq<TryOnRecord>
    var statusChecks: seq<StatusCheck>

    constructor ()
      ensures tryons == [] && statusChecks == []
    {
      tryons := [];
      statusChecks := [];
    }

    /** create_tryon. `apiKey` is GEMINI_API_KEY from the environment; `tryonId` and
        `timestamp` are the uuid4 and utcnow() the endpoint draws; `sent` is the message
        given to the model, None when the model is never called. */
    method CreateTryOn(request: TryOnRequest, apiKey: Option<string>, tryonId: string, timestamp: int,
                       reply: ModelReply, write: StoreWrite)
      returns (r: Result<TryOnResponse, HttpError>, sent: Option<UserMessage>)
      modifies this
      ensures statusChecks == old(statusChecks)
      ensures apiKey.None? || apiKey == Some("") ==>
        r == Failure(HttpError(500, KeyMissingDetail)) && sent.None?
      ensures apiKey.Some? && apiKey != Some("") ==>
        sent == Some(UserMessage(Instruction, [request.personImage, request.clothingImage]))
      ensures sent.Some? && reply.ModelRaised? ==> r == Failure(Translate(OtherRaised(reply.message)))
      ensures sent.Some? && reply.Replied? && FirstImageData(reply.images).Failure? ==>
        r == Failure(Translate(FirstImageData(reply.images).error))
      ensures sent.Some? && reply.Replied? && FirstImageData(reply.images).Success? && write.WriteRaised? ==>
        r == Failure(Translate(OtherRaised(write.message)))
      ensures r.Success? <==>
        sent.Some? && reply.Replied? && FirstImageData(reply.images).Success? && write.Written?
      ensures r.Success? ==>
        var record := TryOnRecord(tryonId, request.personImage, request.clothingImage,
                                  FirstImageData(reply.images).value, timestamp, Completed);
        tryons == old(tryons) + [record] && r.value == ResponseOf(record)
      ensures r.Failure? ==> tryons == old(tryons) && TryOnErrorShape(r.error)
    {
      sent := None;
      var raised: Option<Raised> := None;
      if apiKey.None? || apiKey.value == "" {
        raised := Some(HttpRaised(HttpError(500, KeyMissingDetail)));
      } else {
        sent := Some(UserMessage(Instruction, [request.personImage, request.clothingImage]));
        match reply {
          case ModelRaised(m) =>
            raised := Some(OtherRaised(m));
          case Replied(_, images) =>
            var image := FirstImageData(images);
            if image.Failure? {
              raised := Some(image.error);
            } else {
              var record := TryOnRecord(tryonId, request.personImage, request.clothingImage,
                                        image.value, timestamp, Completed);
              match write {
                case WriteRaised(m) =>
                  raised := Some(OtherRaised(m));
                case Written =>
                  tryons := tryons + [record];
                  r := Success(ResponseOf(record));
              }
            }
        }
      }
      if raised.Some? {
        r := Failure(Translate(raised.value));
      }
    }

    /** create_status_check: appends the check; when the write raises, the exception
        is not caught and the framework answers 500. */
    method CreateStatusCheck(clientName: string, id: string, timestamp: int, write: StoreWrite)
      returns (r: Result<StatusCheck, HttpError>)
      modifies this
      ensures tryons == old(tryons)
      ensures write.Written? ==>
        r == Success(StatusCheck(id, clientName, timestamp)) && statusChecks == old(statusChecks) + [r.value]
      ensures write.WriteRaised? ==>
        r == Failure(HttpError(500, InternalErrorDetail)) && statusChecks == old(statusChecks)
    {
      var check := StatusCheck(id, clientName, timestamp);
      if write.WriteRaised? {
        return Failure(HttpError(500, InternalErrorDetail));
      }
      statusChecks := statusChecks + [check];
      r := Success(check);
    }
  }
}
