/** The two actions of the Generator as sequences of observable effects.
    Every collaborator the source awaits (html2canvas, `canvas.toBlob`, the
    storage upload, the `agents` insert) is replaced by the outcome it
    delivered, so each action is a function of the form and those outcomes. */
module Pipeline {
  import opened Card
  import opened Naming

  /** What html2canvas did: produced a canvas, or threw an error with a message. */
  datatype CaptureOutcome = Captured | CaptureThrew(message: string)

  /** What the `toBlob` call came to: a PNG blob, a null blob, or a
      synchronous throw (a tainted canvas, for one) before any callback. */
  datatype EncodeOutcome = BlobProduced | BlobNull | EncodeThrew(message: string)

  /** The `{ error }` half of the storage upload reply. A path collision under
      `upsert: false` is one more error. */
  datatype UploadReply = UploadOk | UploadError(message: string)

  /** The `insert(...).select().single()` reply: the inserted row's id, or an error. */
  datatype InsertReply = Inserted(agentId: string) | InsertError(message: string)

  /** Everything the outside world contributes to one publish: the capture
      outcome, what `toBlob` came to, the UUID drawn, the upload
      reply, the URL `getPublicUrl` resolves and the insert reply. */
  datatype PublishWorld = PublishWorld(
    capture: CaptureOutcome,
    encode: EncodeOutcome,
    uuid: string,
    upload: UploadReply,
    publicUrl: string,
    insert: InsertReply)

  /** The error that ends a publish, one per step that can fail. */
  datatype Failure =
    | CaptureFailed(detail: string)
    | BlobMissing
    | EncodeFailed(detail: string)
    | UploadFailed(detail: string)
    | InsertFailed(detail: string)

  const UploadFailedPrefix := "Upload failed: "
  const InsertFailedPrefix := "Database insert failed: "

  /** The error message the failure notice carries. A store error keeps the
      store's own message verbatim behind a prefix naming the step; a
      thrown capture or encode error keeps its message as it is. */
  function FailureMessage(f: Failure): (r: string)
    ensures f.UploadFailed? ==>
              |r| == |UploadFailedPrefix| + |f.detail| &&
              r[..|UploadFailedPrefix|] == UploadFailedPrefix && r[|UploadFailedPrefix|..] == f.detail
    ensures f.InsertFailed? ==>
              |r| == |InsertFailedPrefix| + |f.detail| &&
              r[..|InsertFailedPrefix|] == InsertFailedPrefix && r[|InsertFailedPrefix|..] == f.detail
    ensures f.CaptureFailed? || f.EncodeFailed? ==> r == f.detail
    ensures f.BlobMissing? ==> r == "Failed to generate image blob"
  {
    match f
    case CaptureFailed(detail) => detail
    case BlobMissing => "Failed to generate image blob"
    case EncodeFailed(detail) => detail
    case UploadFailed(detail) => UploadFailedPrefix + detail
    case InsertFailed(detail) => InsertFailedPrefix + detail
  }

  /** The blocking notices the user sees. */
  datatype Notice =
    | PublishSucceeded(agentId: string, imageUrl: string)
    | PublishFailed(reason: Failure)
    | DownloadFailed

  /** Observable effects, in the order they happen. `Capture` and `Encode`
      are the calls to html2canvas and `toBlob`; `Upload` names the object
      path it wrote to and the store's reply, `ResolveUrl` the path it was
      given and the URL it returned. */
  datatype Effect =
    | Capture
    | Encode
    | Upload(path: string, reply: UploadReply)
    | ResolveUrl(path: string, url: string)
    | Insert(record: AgentRecord)
    | Download(fileName: string)
    | Alert(notice: Notice)

  /** The publish handler's effects once the card is mounted: each step runs
      only if the one before it succeeded. Whichever way the sequence ends,
      it starts with the capture and shows exactly one notice, as its last
      effect. */
  function PublishEffects(card: CardData, w: PublishWorld): (r: seq<Effect>)
    ensures |r| >= 2 && r[0] == Capture
    ensures r[|r| - 1].Alert?
    ensures forall i :: 0 <= i < |r| - 1 ==> !r[i].Alert?
  {
    [Capture] +
    match w.capture
    case CaptureThrew(m) => [Alert(PublishFailed(CaptureFailed(m)))]
    case Captured =>
      [Encode] +
      match w.encode
      case BlobNull => [Alert(PublishFailed(BlobMissing))]
      case EncodeThrew(m) => [Alert(PublishFailed(EncodeFailed(m)))]
      case BlobProduced =>
        var path := UploadPath(w.uuid, card.serial);
        [Upload(path, w.upload)] +
        match w.upload
        case UploadError(m) => [Alert(PublishFailed(UploadFailed(m)))]
        case UploadOk =>
          [ResolveUrl(path, w.publicUrl), Insert(AgentRecordOf(card, w.publicUrl))] +
          match w.insert
          case InsertError(m) => [Alert(PublishFailed(InsertFailed(m)))]
          case Inserted(id) => [Alert(PublishSucceeded(id, w.publicUrl))]
  }

  /** Reference view of a publish: the five steps in order, each upload
      carrying the reply it got. */
  function PublishSteps(card: CardData, w: PublishWorld): seq<Effect>
  {
    var path := UploadPath(w.uuid, card.serial);
    [Capture, Encode, Upload(path, w.upload), ResolveUrl(path, w.publicUrl), Insert(AgentRecordOf(card, w.publicUrl))]
  }

  datatype Option<T> = None | Some(value: T)

  /** The first step whose outcome was a failure, if any. */
  function FirstFailure(w: PublishWorld): Option<Failure>
  {
    if w.capture.CaptureThrew? then Some(CaptureFailed(w.capture.message))
    else if w.encode.BlobNull? then Some(BlobMissing)
    else if w.encode.EncodeThrew? then Some(EncodeFailed(w.encode.message))
    else if w.upload.UploadError? then Some(UploadFailed(w.upload.message))
    else if w.insert.InsertError? then Some(InsertFailed(w.insert.message))
    else None
  }

  /** How many of the five steps are attempted: a failing step is attempted,
      none after it is. */
  function StepsAttempted(w: PublishWorld): (n: nat)
    ensures 1 <= n <= 5
  {
    match FirstFailure(w)
    case Some(CaptureFailed(_)) => 1
    case Some(BlobMissing) => 2
    case Some(EncodeFailed(_)) => 2
    case Some(UploadFailed(_)) => 3
    case _ => 5
  }

  /** Ordering and abort-on-failure: a publish is a prefix of the five steps,
      cut right after the first failing one, followed by a single notice that
      names that failure (or reports success when there was none). */
  lemma PublishIsPrefixThenNotice(card: CardData, w: PublishWorld)
    ensures PublishEffects(card, w)
         == PublishSteps(card, w)[..StepsAttempted(w)]
          + [Alert(if FirstFailure(w).Some? then PublishFailed(FirstFailure(w).value)
                   else PublishSucceeded(w.insert.agentId, w.publicUrl))]
  {
  }

  /** The success notice appears exactly when capture, blob and upload
      succeeded and the insert returned a row; it carries that row's id and
      the resolved public URL. */
  lemma PublishSucceedsIffInserted(card: CardData, w: PublishWorld, id: string, url: string)
    ensures Alert(PublishSucceeded(id, url)) in PublishEffects(card, w)
        <==> w.capture == Captured && w.encode == BlobProduced && w.upload == UploadOk
             && w.insert == Inserted(id) && url == w.publicUrl
  {
  }

  /** After an upload error no URL is resolved and nothing is inserted; the
      notice is the upload failure with the store's message. */
  lemma UploadErrorAbortsPublish(card: CardData, w: PublishWorld)
    requires w.capture == Captured && w.encode == BlobProduced && w.upload.UploadError?
    ensures forall e :: e in PublishEffects(card, w) ==> !e.ResolveUrl? && !e.Insert?
    ensures Alert(PublishFailed(UploadFailed(w.upload.message))) in PublishEffects(card, w)
  {
  }

  /** The object path goes unchanged to the upload and to URL resolution, and
      the one record inserted maps each form field to its column and the
      resolved URL to `image_url`. */
  lemma PublishRecordMapping(card: CardData, w: PublishWorld, r: AgentRecord)
    requires Insert(r) in PublishEffects(card, w)
    ensures w.capture == Captured && w.encode == BlobProduced && w.upload == UploadOk
    ensures Upload(UploadPath(w.uuid, card.serial), UploadOk) in PublishEffects(card, w)
    ensures ResolveUrl(UploadPath(w.uuid, card.serial), w.publicUrl) in PublishEffects(card, w)
    ensures r.name == card.name && r.model == card.agentType && r.serialNumber == card.serial
    ensures r.soulText == card.soulText && r.themeColor == card.themeColor && r.imageUrl == w.publicUrl
  {
  }

  /** The download handler's own effects once the card is mounted: the
      capture, then the `toBlob` call if the capture succeeded. Either call
      throwing inside the handler shows the download failure notice. */
  function DownloadEffects(capture: CaptureOutcome, toBlobThrows: bool): (r: seq<Effect>)
    ensures |r| >= 2 && r[0] == Capture
    ensures Encode in r <==> capture.Captured?
    ensures Alert(DownloadFailed) in r <==> capture.CaptureThrew? || toBlobThrows
    ensures forall e :: e in r ==> e == Capture || e == Encode || e == Alert(DownloadFailed)
    ensures multiset(r)[Capture] == 1 && multiset(r)[Encode] <= 1
    ensures multiset(r)[Alert(DownloadFailed)] <= 1
    ensures Alert(DownloadFailed) in r ==> r[|r| - 1] == Alert(DownloadFailed)
  {
    [Capture] +
    if capture.CaptureThrew? then [Alert(DownloadFailed)]
    else [Encode] + if toBlobThrows then [Alert(DownloadFailed)] else []
  }

  /** The `toBlob` callback of a download, which runs after the handler has
      returned: a missing blob throws inside the callback, outside the
      handler's catch, so it shows no notice and saves nothing. */
  function SaveEffects(fileName: string, blobProduced: bool): (r: seq<Effect>)
    ensures Download(fileName) in r <==> blobProduced
    ensures forall e :: e in r ==> e == Download(fileName)
    ensures |r| <= 1
  {
    if blobProduced then [Download(fileName)] else []
  }

  /** Every insert in a trace comes right after the URL resolution for a
      path, which comes right after a successful upload of that same path,
      and the record's image URL is the resolved one: no record points at an
      object that was not written first. */
  ghost predicate InsertsBacked(t: seq<Effect>)
  {
    forall i :: 0 <= i < |t| ==> BackedAt(t, i)
  }

  /** The condition above, at position `i` of the trace. */
  ghost predicate BackedAt(t: seq<Effect>, i: nat)
    requires i < |t|
  {
    t[i].Insert? ==>
      2 <= i && t[i - 1].ResolveUrl? && t[i - 2] == Upload(t[i - 1].path, UploadOk)
      && t[i].record.imageUrl == t[i - 1].url
  }

  /** Appending a backed trace to a backed trace keeps it backed. */
  lemma InsertsBackedAppend(a: seq<Effect>, b: seq<Effect>)
    requires InsertsBacked(a) && InsertsBacked(b)
    ensures InsertsBacked(a + b)
  {
    var t := a + b;
    forall i | 0 <= i < |t|
      ensures BackedAt(t, i)
    {
      if i < |a| {
        assert BackedAt(a, i);
      } else {
        var j := i - |a|;
        assert b[j] == t[i];
        assert BackedAt(b, j);
        if b[j].Insert? {
          assert t[i - 1] == b[j - 1] && t[i - 2] == b[j - 2];
        }
      }
    }
  }

  /** A publish is backed on its own: its one insert follows the successful
      upload and URL resolution of the path the record's image URL was resolved from. */
  lemma PublishEffectsBacked(card: CardData, w: PublishWorld)
    ensures InsertsBacked(PublishEffects(card, w))
  {
  }

  /** A download inserts nothing, so it is backed trivially. */
  lemma DownloadEffectsBacked(capture: CaptureOutcome, toBlobThrows: bool)
    ensures InsertsBacked(DownloadEffects(capture, toBlobThrows))
  {
  }

  /** Nor does its save callback. */
  lemma SaveEffectsBacked(fileName: string, blobProduced: bool)
    ensures InsertsBacked(SaveEffects(fileName, blobProduced))
  {
  }
}
