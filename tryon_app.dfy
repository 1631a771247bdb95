/** The try-on page: the React state of the component (the two chosen pictures, the
    result, the error and loading text, the camera target and the history that mirrors
    local storage) and the handlers that change it. The POST to /api/tryon, the camera
    and the confirm dialog are inputs. */
module TryOnApp {
  import opened Wrappers
  import Base64

  /** A chosen picture: the base64 text posted to the server (None when it is undefined)
      and the URL shown as its preview. */
  datatype ImageInput = ImageInput(base64: Option<string>, preview: string)

  datatype HistoryItem = HistoryItem(personImage: string, clothingImage: string, resultImage: string, timestamp: string)

  /** The body posted to /api/tryon; an undefined field is None. */
  datatype TryOnPayload = TryOnPayload(personImage: Option<string>, clothingImage: Option<string>)

  /** What a running handleGenerate holds on to while it awaits the server: the two
      pictures and the history of the render it was called from. */
  datatype PendingTryOn = PendingTryOn(person: ImageInput, clothing: ImageInput, history: seq<HistoryItem>)

  /** How the POST ends: a response, whose `result_image` may be missing, or a rejected
      request with the server's `detail` (if any) and the error's `message`. */
  datatype ServerReply = Answered(resultImage: Option<string>) | Rejected(detail: Option<string>, message: Option<string>)

  /** How `localStorage.setItem` ends: the value is stored, or it throws with the
      exception's message (a QuotaExceededError once the saved data URLs fill the
      site's storage quota). */
  datatype StorageWrite = Stored | Thrown(message: Option<string>)

  const BothImagesRequired: string := "Please upload both your photo and the clothing image"
  const NoImageReturned: string := "No image returned from server"
  const GenerateFailed: string := "Failed to generate try-on. Please try again."
  const ResultUrlPrefix: string := "data:image/png;base64,"
  const PersonCamera: string := "person"

  /** The text before the first comma, or all of s: the helper PayloadOf splits with. */
  function UpToComma(s: string): (r: string)
    ensures r <= s && ',' !in r
    ensures |r| < |s| ==> s[|r|] == ','
    decreases |s|
  {
    if |s| == 0 || s[0] == ',' then [] else [s[0]] + UpToComma(s[1..])
  }

  /** s is h, a comma, v, then either nothing or text starting with a comma, with h
      comma-free: v is the second comma-separated field of s when v is comma-free too. */
  predicate SplitsAs(s: string, h: string, v: string, t: string) {
    ',' !in h && (t == [] || t[0] == ',') && s == h + "," + v + t
  }

  /** Cutting s at a comma that ends a comma-free prefix, and the rest at the comma
      that ends its comma-free prefix (if any), puts s back together. */
  lemma SecondFieldSplit(s: string, head: string, field: string)
    requires head <= s && |head| < |s| && s[|head|] == ',' && ',' !in head
    requires field <= s[|head| + 1..] && ',' !in field
    requires |field| < |s[|head| + 1..]| ==> s[|head| + 1..][|field|] == ','
    ensures SplitsAs(s, head, field, s[|head| + 1..][|field|..])
  {
    var rest := s[|head| + 1..];
    var tail := rest[|field|..];
    assert s == head + "," + rest;
    assert rest == field + tail;
  }

  /** `s.split(',')[1]`: the text between the first and the second comma, undefined when
      s has no comma. Used on data URLs to drop the "data:...;base64," header. */
  function PayloadOf(s: string): (r: Option<string>)
    ensures r.None? <==> ',' !in s
    ensures r.Some? ==> ',' !in r.value
    ensures r.Some? ==> exists h, t :: SplitsAs(s, h, r.value, t)
  {
    var head := UpToComma(s);
    if |head| == |s| then
      assert head == s;
      None
    else
      var field := UpToComma(s[|head| + 1..]);
      SecondFieldSplit(s, head, field);
      Some(field)
  }

  lemma {:induction false} UpToCommaOfPlain(s: string)
    requires ',' !in s
    ensures UpToComma(s) == s
    decreases |s|
  {
    if |s| > 0 {
      UpToCommaOfPlain(s[1..]);
      assert [s[0]] + s[1..] == s;
    }
  }

  lemma {:induction false} UpToCommaOfJoin(header: string, rest: string)
    requires ',' !in header
    ensures UpToComma(header + "," + rest) == header
    decreases |header|
  {
    if |header| > 0 {
      assert (header + "," + rest)[1..] == header[1..] + "," + rest;
      UpToCommaOfJoin(header[1..], rest);
      assert [header[0]] + header[1..] == header;
    }
  }

  /** Splitting a data URL "header,payload" gives back the payload. */
  lemma PayloadOfDataUrl(header: string, payload: string)
    requires ',' !in header && ',' !in payload
    ensures PayloadOf(header + "," + payload) == Some(payload)
  {
    var s := header + "," + payload;
    UpToCommaOfJoin(header, payload);
    assert s[|header| + 1..] == payload;
    UpToCommaOfPlain(payload);
  }

  /** A base64 data URL, such as the preview of a captured or resized picture, splits
      back into exactly the base64 text of its bytes, whatever its comma-free header. */
  lemma DataUrlGivesBackEncoding(header: string, bytes: seq<Base64.Byte>)
    requires ',' !in header
    ensures PayloadOf(header + "," + Base64.Encode(bytes)) == Some(Base64.Encode(bytes))
  {
    Base64.EncodeAlphabet(bytes);
    PayloadOfDataUrl(header, Base64.Encode(bytes));
  }

  /** The error text after a failed generation: the server's detail, else the error's
      message, else a default. A response without `result_image` throws an Error with
      its own message, so it lands here with that message. */
  function FailureText(reply: ServerReply): (s: string)
    requires !(reply.Answered? && Truthy(reply.resultImage))
    ensures s != ""
    ensures reply.Answered? ==> s == NoImageReturned
    ensures reply.Rejected? && Truthy(reply.detail) ==> s == reply.detail.value
    ensures reply.Rejected? && !Truthy(reply.detail) && Truthy(reply.message) ==> s == reply.message.value
    ensures reply.Rejected? && !Truthy(reply.detail) && !Truthy(reply.message) ==> s == GenerateFailed
  {
    match reply
    case Answered(_) => NoImageReturned
    case Rejected(detail, message) =>
      if Truthy(detail) then detail.value
      else if Truthy(message) then message.value
      else GenerateFailed
  }

  class TryOnPage {
    var personImage: Option<ImageInput>
    var clothingImage: Option<ImageInput>
    var resultImage: Option<string>
    var loading: bool
    var error: Option<string>
    var loadingMessage: string
    var showCamera: bool
    var cameraType: Option<string>
    var history: seq<HistoryItem>
    /** The 'tryonHistory' entry of local storage; None when it is absent. */
    var storedHistory: Option<seq<HistoryItem>>

    /** Mounting the page: history is loaded from local storage when an entry is there. */
    constructor (saved: Option<seq<HistoryItem>>)
      ensures personImage.None? && clothingImage.None? && resultImage.None? && error.None?
      ensures !loading && loadingMessage == "" && !showCamera && cameraType.None?
      ensures storedHistory == saved
      ensures history == if saved.Some? then saved.value else []
    {
      personImage, clothingImage, resultImage := None, None, None;
      loading, error, loadingMessage := false, None, "";
      showCamera, cameraType := false, None;
      storedHistory := saved;
      history := if saved.Some? then saved.value else [];
    }

    /** saveToHistory: the new item goes in front of the old ones, and storage holds a
        copy of the new history. The old items are `seen`, the history of the render the
        caller belongs to, which is the current one unless it changed since. The state
        is set before the storage write, so a write that throws keeps the new history
        in memory and the old one in storage; the exception goes on to the caller. */
    method SaveToHistory(seen: seq<HistoryItem>, personImg: string, clothingImg: string, resultImg: string,
                         timestamp: string, write: StorageWrite)
      modifies this`history, this`storedHistory
      ensures history == [HistoryItem(personImg, clothingImg, resultImg, timestamp)] + seen
      ensures |history| == |seen| + 1 && history[1..] == seen
      ensures write.Stored? ==> storedHistory == Some(history)
      ensures write.Thrown? ==> storedHistory == old(storedHistory)
    {
      var newItem := HistoryItem(personImg, clothingImg, resultImg, timestamp);
      var updatedHistory := [newItem] + seen;
      history := updatedHistory;
      if write.Stored? {
        storedHistory := Some(updatedHistory);
      }
    }

    /** openCamera. */
    method OpenCamera(kind: string)
      modifies this`cameraType, this`showCamera
      ensures cameraType == Some(kind) && showCamera
    {
      cameraType := Some(kind);
      showCamera := true;
    }

    /** handleCameraCapture: the captured picture becomes the person picture exactly when
        the camera was opened for the person, and the clothing picture otherwise. */
    method HandleCameraCapture(base64: Option<string>, previewUrl: string)
      modifies this`personImage, this`clothingImage, this`error
      ensures old(cameraType) == Some(PersonCamera) ==>
        personImage == Some(ImageInput(base64, previewUrl)) && clothingImage == old(clothingImage)
      ensures old(cameraType) != Some(PersonCamera) ==>
        clothingImage == Some(ImageInput(base64, previewUrl)) && personImage == old(personImage)
      ensures error.None?
    {
      if cameraType == Some(PersonCamera) {
        personImage := Some(ImageInput(base64, previewUrl));
      } else {
        clothingImage := Some(ImageInput(base64, previewUrl));
      }
      error := None;
    }

    /** handleGenerate up to the POST. Without both pictures only the error changes.
        Otherwise loading starts, the error and the old result are cleared, the two base64
        texts are posted, and the handler keeps the pictures and the history it saw. */
    method BeginGenerate() returns (posted: Option<TryOnPayload>, pending: Option<PendingTryOn>)
      modifies this`loading, this`error, this`resultImage, this`loadingMessage
      ensures posted.None? <==> pending.None?
      ensures old(personImage).None? || old(clothingImage).None? ==>
        && posted.None? && error == Some(BothImagesRequired)
        && resultImage == old(resultImage) && loading == old(loading) && loadingMessage == old(loadingMessage)
      ensures old(personImage).Some? && old(clothingImage).Some? ==>
        && posted == Some(TryOnPayload(personImage.value.base64, clothingImage.value.base64))
        && pending == Some(PendingTryOn(personImage.value, clothingImage.value, history))
        && loading && error.None? && resultImage.None? && loadingMessage == "Creating your virtual try-on..."
    {
      if personImage.None? || clothingImage.None? {
        error := Some(BothImagesRequired);
        return None, None;
      }
      loading := true;
      error := None;
      resultImage := None;
      loadingMessage := "Preparing images...";
      loadingMessage := "Creating your virtual try-on...";
      posted := Some(TryOnPayload(personImage.value.base64, clothingImage.value.base64));
      pending := Some(PendingTryOn(personImage.value, clothingImage.value, history));
    }

    /** handleGenerate after the POST settles. A reply with a result image shows it as a
        PNG data URL and saves one history item in front of the history the handler saw
        when it started (not the current one); anything else sets the error text. When
        the storage write of the save throws, the catch sets the error from the
        exception's message, while the result and the new history stay. Either way
        loading ends. */
    method FinishGenerate(pending: PendingTryOn, reply: ServerReply, timestamp: string, write: StorageWrite)
      modifies this`loading, this`error, this`resultImage, this`loadingMessage, this`history, this`storedHistory
      ensures !loading && loadingMessage == ""
      ensures reply.Answered? && Truthy(reply.resultImage) ==>
        && resultImage == Some(ResultUrlPrefix + reply.resultImage.value)
        && history == [HistoryItem(pending.person.preview, pending.clothing.preview,
                                   resultImage.value, timestamp)] + pending.history
      ensures reply.Answered? && Truthy(reply.resultImage) && write.Stored? ==>
        error == old(error) && storedHistory == Some(history)
      ensures reply.Answered? && Truthy(reply.resultImage) && write.Thrown? ==>
        error == Some(FailureText(Rejected(None, write.message))) && storedHistory == old(storedHistory)
      ensures !(reply.Answered? && Truthy(reply.resultImage)) ==>
        && resultImage == old(resultImage) && error == Some(FailureText(reply))
        && history == old(history) && storedHistory == old(storedHistory)
    {
      if reply.Answered? && Truthy(reply.resultImage) {
        loadingMessage := "Finalizing your new look...";
        var resultImageUrl := ResultUrlPrefix + reply.resultImage.value;
        resultImage := Some(resultImageUrl);
        loadingMessage := "Complete!";
        SaveToHistory(pending.history, pending.person.preview, pending.clothing.preview, resultImageUrl, timestamp,
                      write);
        if write.Thrown? {
          error := Some(FailureText(Rejected(None, write.message)));
        }
      } else {
        error := Some(FailureText(reply));
      }
      loading := false;
      loadingMessage := "";
    }

    /** handleGenerate when nothing else happens while the POST is in flight. Without both
        pictures only the error changes. Otherwise the two base64 texts are posted; a
        reply with a result image shows it and adds exactly one history item, anything
        else sets the error text; either way loading ends. A storage write that throws
        while saving leaves the result and the new history shown, storage as it was, and
        the exception's message as the error. `posted` is the body sent, None when
        nothing is sent. */
    method HandleGenerate(reply: ServerReply, timestamp: string, write: StorageWrite)
      returns (posted: Option<TryOnPayload>)
      modifies this
      ensures personImage == old(personImage) && clothingImage == old(clothingImage)
      ensures showCamera == old(showCamera) && cameraType == old(cameraType)
      ensures old(personImage).None? || old(clothingImage).None? ==>
        && posted.None? && error == Some(BothImagesRequired)
        && resultImage == old(resultImage) && loading == old(loading) && loadingMessage == old(loadingMessage)
        && history == old(history) && storedHistory == old(storedHistory)
      ensures old(personImage).Some? && old(clothingImage).Some? ==>
        && posted == Some(TryOnPayload(old(personImage).value.base64, old(clothingImage).value.base64))
        && !loading && loadingMessage == ""
      ensures posted.Some? && reply.Answered? && Truthy(reply.resultImage) ==>
        && resultImage == Some(ResultUrlPrefix + reply.resultImage.value)
        && history == [HistoryItem(personImage.value.preview, clothingImage.value.preview,
                                   resultImage.value, timestamp)] + old(history)
      ensures posted.Some? && reply.Answered? && Truthy(reply.resultImage) && write.Stored? ==>
        error.None? && storedHistory == Some(history)
      ensures posted.Some? && reply.Answered? && Truthy(reply.resultImage) && write.Thrown? ==>
        error == Some(FailureText(Rejected(None, write.message))) && storedHistory == old(storedHistory)
      ensures posted.Some? && !(reply.Answered? && Truthy(reply.resultImage)) ==>
        && resultImage.None? && error == Some(FailureText(reply))
        && history == old(history) && storedHistory == old(storedHistory)
    {
      var pending;
      posted, pending := BeginGenerate();
      if pending.Some? {
        FinishGenerate(pending.value, reply, timestamp, write);
      }
    }

    /** History cleared (and confirmed) while a generation is in flight: the reply puts
        the old items back, in front of which the new one goes, because the handler
        saves on top of the history it saw when it started. Storage gets them back too,
        unless its write throws, in which case it stays cleared. */
    method ClearDuringGenerate(reply: ServerReply, timestamp: string, write: StorageWrite)
      requires personImage.Some? && clothingImage.Some?
      requires reply.Answered? && Truthy(reply.resultImage)
      modifies this
      ensures |history| == |old(history)| + 1 && history[1..] == old(history)
      ensures write.Stored? ==> storedHistory == Some(history)
      ensures write.Thrown? ==> storedHistory.None?
    {
      var posted, pending := BeginGenerate();
      HandleClearHistory(true);
      assert history == [];
      FinishGenerate(pending.value, reply, timestamp, write);
    }

    /** handleStartOver: clears both pictures, the result, the error and the loading text;
        history stays. */
    method HandleStartOver()
      modifies this`personImage, this`clothingImage, this`resultImage, this`error, this`loadingMessage
      ensures personImage.None? && clothingImage.None? && resultImage.None? && error.None?
      ensures loadingMessage == ""
    {
      personImage := None;
      clothingImage := None;
      resultImage := None;
      error := None;
      loadingMessage := "";
    }

    /** handleClearHistory: empties history and removes it from storage, only when the
        user confirms. */
    method HandleClearHistory(confirmed: bool)
      modifies this`history, this`storedHistory
      ensures confirmed ==> history == [] && storedHistory.None?
      ensures !confirmed ==> history == old(history) && storedHistory == old(storedHistory)
    {
      if confirmed {
        history := [];
        storedHistory := None;
      }
    }

    /** handleHistorySelect: the item's data URLs come back as the two pictures, their
        base64 taken after the first comma, and its result is shown again. */
    method HandleHistorySelect(item: HistoryItem)
      modifies this`personImage, this`clothingImage, this`resultImage
      ensures personImage == Some(ImageInput(PayloadOf(item.personImage), item.personImage))
      ensures clothingImage == Some(ImageInput(PayloadOf(item.clothingImage), item.clothingImage))
      ensures resultImage == Some(item.resultImage)
    {
      personImage := Some(ImageInput(PayloadOf(item.personImage), item.personImage));
      clothingImage := Some(ImageInput(PayloadOf(item.clothingImage), item.clothingImage));
      resultImage := Some(item.resultImage);
    }
  }
}
