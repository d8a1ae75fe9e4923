/**
 * The detection-and-notify pipeline (main.py, `process_detection`): upload
 * the photo, run detection, decide on the first detection, notify only on a
 * crash, and answer with the decision, the notification status and the
 * photo's URL; an exception in any stage becomes the one error result.
 * The photo store, the detector's inference and the mail transport are
 * inputs; every call to them is recorded in a trace.
 */
module App {
  import opened Outcomes
  import Detection
  import Mailing

  /** The form fields and the uploaded image of one request. */
  datatype Form = Form(province: string, city: string, district: string, description: string,
                       image: seq<byte>, userId: string)

  /** The environment variables the pipeline and the notifier read. */
  datatype Env = Env(receiver: Option<string>, sender: Option<string>, password: Option<string>)

  /** The outcome of the Cloudinary upload: the `secure_url` of the stored photo, or the exception raised. */
  datatype UploadResult = Uploaded(secureUrl: string) | UploadFailed(error: string)

  /** The outside calls of one request, in the order they are made. */
  datatype Call =
    | Upload(file: seq<byte>, folder: string, publicId: string, resourceType: string)
    | Detect(image: seq<byte>)
    | Notify(report: Mailing.Report)
    | Mail(call: Mailing.MailCall)

  /** The `DetectionResponse` returned on success. */
  datatype Response = Response(detectionStatus: string, emailStatus: Mailing.EmailStatus, imageUrl: string)

  /** The exception turned into the HTTP 500 error: where it was raised. */
  datatype PipelineError = StorageError(error: string) | DetectionError(cause: Detection.DetectError)

  const UploadFolder := "accivision/uploads"
  const CarCrash := "car-crash"
  const Detected := "detected"
  const NotDetected := "not_detected"
  const Skipped := Mailing.EmailStatus(false, "No email sent because no car crash detected.")

  /** The Cloudinary public id: the user id, an underscore and the unique suffix. */
  function PublicId(userId: string, suffix: string): string {
    userId + "_" + suffix
  }

  /**
   * The public id is the user id, then `_`, then the suffix; so two uploads
   * by the same user with different suffixes never share an id.
   */
  lemma PublicIdParts(userId: string, suffix: string, other: string)
    ensures var id := PublicId(userId, suffix);
      |id| == |userId| + 1 + |suffix|
      && id[..|userId|] == userId && id[|userId|] == '_' && id[|userId| + 1..] == suffix
    ensures suffix != other ==> PublicId(userId, suffix) != PublicId(userId, other)
  {
    var id, id' := PublicId(userId, suffix), PublicId(userId, other);
    assert id[|userId| + 1..] == suffix;
    assert id'[|userId| + 1..] == other;
  }

  /** The decision rule: only the first detection is examined. */
  function DetectionStatus(detections: seq<Detection.Detection>): (status: string)
    ensures status == Detected || status == NotDetected
    ensures status == Detected <==> 0 < |detections| && detections[0].cls == CarCrash
  {
    if |detections| > 0 && detections[0].cls == CarCrash then Detected else NotDetected
  }

  /** A Python value from an environment variable. */
  function EnvValue(v: Option<string>): Mailing.Value {
    match v
    case None => Mailing.Null
    case Some(s) => Mailing.Str(s)
  }

  /** The dictionary passed to `send_email`. */
  function NotifyReport(form: Form, receiver: Option<string>, imageUrl: string): Mailing.Report {
    map["recipient_email" := EnvValue(receiver),
        "province" := Mailing.Str(form.province),
        "city" := Mailing.Str(form.city),
        "district" := Mailing.Str(form.district),
        "description" := Mailing.Str(form.description),
        "image_url" := Mailing.Str(imageUrl)]
  }

  /** The notifier's calls as calls of the pipeline. */
  function MailCalls(calls: seq<Mailing.MailCall>): (r: seq<Call>)
    ensures |r| == |calls|
    ensures forall k :: 0 <= k < |r| ==> !r[k].Notify?
  {
    seq(|calls|, k requires 0 <= k < |calls| => Mail(calls[k]))
  }

  /** What one request answers and the outside calls it makes, in order. */
  datatype Handled = Handled(result: Result<Response, PipelineError>, calls: seq<Call>)

  /**
   * `process_detection` as a function of its inputs: the unique suffix
   * stands for `uuid4()`, `upload` for what Cloudinary does with the file,
   * `inference` for what the model makes of the image bytes, and `fetch`
   * and `smtp` for the notifier's download and SMTP session.
   */
  function Handle(form: Form, suffix: string, upload: UploadResult,
                  inference: Detection.InferenceOutcome, env: Env,
                  fetch: Mailing.FetchResult, smtp: Mailing.Smtp): Handled
  {
    var stored := [Upload(form.image, UploadFolder, PublicId(form.userId, suffix), "image")];
    match upload
    case UploadFailed(e) => Handled(Failure(StorageError(e)), stored)
    case Uploaded(url) =>
      var examined := stored + [Detect(form.image)];
      match Detection.Detections(inference)
      case Failure(e) => Handled(Failure(DetectionError(e)), examined)
      case Success(detections) =>
        var status := DetectionStatus(detections);
        if status == Detected then
          var report := NotifyReport(form, env.receiver, url);
          var outcome := Mailing.EmailOutcome(Mailing.Credentials(env.sender, env.password), report, fetch, smtp);
          Handled(Success(Response(status, outcome.status, url)), examined + [Notify(report)] + MailCalls(outcome.calls))
        else
          Handled(Success(Response(status, Skipped, url)), examined)
  }

  /** `process_detection`, step by step, is the request described by `Handle`. */
  method ProcessDetection(form: Form, suffix: string, upload: UploadResult,
                          inference: Detection.InferenceOutcome, env: Env,
                          fetch: Mailing.FetchResult, smtp: Mailing.Smtp)
    returns (r: Result<Response, PipelineError>, calls: seq<Call>)
    ensures Handled(r, calls) == Handle(form, suffix, upload, inference, env, fetch, smtp)
  {
    var publicId := PublicId(form.userId, suffix);
    calls := [Upload(form.image, UploadFolder, publicId, "image")];
    if upload.UploadFailed? {
      return Failure(StorageError(upload.error)), calls;
    }
    var imageUrl := upload.secureUrl;

    calls := calls + [Detect(form.image)];
    var detections := Detection.DetectObjects(inference);
    if detections.Failure? {
      return Failure(DetectionError(detections.error)), calls;
    }

    var detectionStatus := DetectionStatus(detections.value);
    var emailStatus;
    if detectionStatus == Detected {
      var notifyCalls;
      emailStatus, notifyCalls := NotifyCrash(form, env, imageUrl, fetch, smtp);
      calls := calls + notifyCalls;
    } else {
      emailStatus := Skipped;
    }
    r := Success(Response(detectionStatus, emailStatus, imageUrl));
  }

  /**
   * The photo is stored first, under the user's id and the suffix, and a
   * failed upload ends the request with the storage error: no detection, no mail.
   */
  lemma StoredFirst(form: Form, suffix: string, upload: UploadResult,
                    inference: Detection.InferenceOutcome, env: Env,
                    fetch: Mailing.FetchResult, smtp: Mailing.Smtp)
    ensures var h := Handle(form, suffix, upload, inference, env, fetch, smtp);
      0 < |h.calls| && h.calls[0] == Upload(form.image, UploadFolder, PublicId(form.userId, suffix), "image")
      && (upload.UploadFailed? ==> h.result == Failure(StorageError(upload.error)) && |h.calls| == 1)
  {
  }

  /**
   * Detection runs second, on the image bytes, once the upload succeeded; a
   * failed detection ends the request with the detection error: no mail.
   */
  lemma DetectedSecond(form: Form, suffix: string, upload: UploadResult,
                       inference: Detection.InferenceOutcome, env: Env,
                       fetch: Mailing.FetchResult, smtp: Mailing.Smtp)
    requires upload.Uploaded?
    ensures var h := Handle(form, suffix, upload, inference, env, fetch, smtp);
      1 < |h.calls| && h.calls[1] == Detect(form.image)
      && (Detection.Detections(inference).Failure? ==>
            h.result == Failure(DetectionError(Detection.Detections(inference).error)) && |h.calls| == 2)
  {
  }

  /**
   * Errors come only from the upload and from detection; on success the
   * response carries the upload's URL and the decision on the detections.
   */
  lemma ErrorsOnlyFromStages(form: Form, suffix: string, upload: UploadResult,
                             inference: Detection.InferenceOutcome, env: Env,
                             fetch: Mailing.FetchResult, smtp: Mailing.Smtp)
    ensures var h := Handle(form, suffix, upload, inference, env, fetch, smtp);
      (h.result.Success? <==> upload.Uploaded? && Detection.Detections(inference).Success?)
      && (h.result.Success? ==>
            h.result.value.imageUrl == upload.secureUrl
            && h.result.value.detectionStatus == DetectionStatus(Detection.Detections(inference).value))
  {
  }

  /**
   * Without a crash the notifier is skipped and the fixed status is
   * reported; with one, the notifier is called once, third, with the
   * request's report, and its outcome is reported unchanged.
   */
  lemma NotifiedOnlyOnCrash(form: Form, suffix: string, upload: UploadResult,
                            inference: Detection.InferenceOutcome, env: Env,
                            fetch: Mailing.FetchResult, smtp: Mailing.Smtp)
    ensures var h := Handle(form, suffix, upload, inference, env, fetch, smtp);
      h.result.Success? && h.result.value.detectionStatus == NotDetected ==>
        h.result.value.emailStatus == Skipped && |h.calls| == 2
    ensures var h := Handle(form, suffix, upload, inference, env, fetch, smtp);
      h.result.Success? && h.result.value.detectionStatus == Detected ==>
        var report := NotifyReport(form, env.receiver, upload.secureUrl);
        var outcome := Mailing.EmailOutcome(Mailing.Credentials(env.sender, env.password), report, fetch, smtp);
        h.result.value.emailStatus == outcome.status
        && h.calls == h.calls[..2] + [Notify(report)] + MailCalls(outcome.calls)
  {
  }

  /** The notifier is called at most once, third, and only on a crash. */
  lemma NotifyAtMostOnce(form: Form, suffix: string, upload: UploadResult,
                         inference: Detection.InferenceOutcome, env: Env,
                         fetch: Mailing.FetchResult, smtp: Mailing.Smtp, k: nat)
    requires var h := Handle(form, suffix, upload, inference, env, fetch, smtp);
      k < |h.calls| && h.calls[k].Notify?
    ensures var h := Handle(form, suffix, upload, inference, env, fetch, smtp);
      k == 2 && h.result.Success? && h.result.value.detectionStatus == Detected
  {
    var h := Handle(form, suffix, upload, inference, env, fetch, smtp);
    NotifiedOnlyOnCrash(form, suffix, upload, inference, env, fetch, smtp);
    if h.result.Success? && h.result.value.detectionStatus == Detected {
      var report := NotifyReport(form, env.receiver, upload.secureUrl);
      var outcome := Mailing.EmailOutcome(Mailing.Credentials(env.sender, env.password), report, fetch, smtp);
      assert h.calls == h.calls[..2] + [Notify(report)] + MailCalls(outcome.calls);
    }
  }

  /** The crash branch: the report for the notifier, and the call to it. */
  method NotifyCrash(form: Form, env: Env, imageUrl: string, fetch: Mailing.FetchResult, smtp: Mailing.Smtp)
    returns (emailStatus: Mailing.EmailStatus, calls: seq<Call>)
    ensures var report := NotifyReport(form, env.receiver, imageUrl);
      var outcome := Mailing.EmailOutcome(Mailing.Credentials(env.sender, env.password), report, fetch, smtp);
      emailStatus == outcome.status && calls == [Notify(report)] + MailCalls(outcome.calls)
  {
    var report := NotifyReport(form, env.receiver, imageUrl);
    var mailCalls;
    emailStatus, mailCalls := Mailing.SendEmail(Mailing.Credentials(env.sender, env.password), report, fetch, smtp);
    calls := [Notify(report)] + MailCalls(mailCalls);
  }

  /**
   * Only the first detection matters: whatever follows it, the status is
   * the status of the first detection alone.
   */
  lemma OnlyFirstDetectionCounts(first: Detection.Detection, rest: seq<Detection.Detection>)
    ensures DetectionStatus([first] + rest) == DetectionStatus([first])
  {
  }

  /**
   * A "car-crash" entry anywhere after a first entry of another class does
   * not make the request "detected".
   */
  lemma LaterCrashIgnored(detections: seq<Detection.Detection>, k: nat)
    requires 0 < |detections| && detections[0].cls != CarCrash
    requires 1 <= k < |detections| && detections[k].cls == CarCrash
    ensures DetectionStatus(detections) == NotDetected
  {
  }

  /** An empty detection list gives "not_detected". */
  lemma EmptyNotDetected()
    ensures DetectionStatus([]) == NotDetected
  {
  }

  /**
   * Combined with the detector: the request reports "detected" exactly when
   * the first box of the first result that has boxes is of the
   * "car-crash" class.
   */
  lemma DecidedByFirstBox(names: map<int, string>, results: seq<Detection.InferenceResult>, i: nat)
    requires Detection.Detections(Detection.Inferred(names, results)).Success?
    requires i < |results| && results[i].boxes != []
    requires forall k :: 0 <= k < i ==> results[k].boxes == []
    ensures Detection.ClassIndex(results[i].boxes[0]) in names
    ensures DetectionStatus(Detection.Detections(Detection.Inferred(names, results)).value) == Detected
        <==> names[Detection.ClassIndex(results[i].boxes[0])] == CarCrash
  {
    Detection.FirstDetection(names, results, i);
  }

  /** Without any box the request reports "not_detected". */
  lemma NoBoxesNotDetected(names: map<int, string>, results: seq<Detection.InferenceResult>)
    requires forall k :: 0 <= k < |results| ==> results[k].boxes == []
    ensures Detection.Detections(Detection.Inferred(names, results)).Success?
    ensures DetectionStatus(Detection.Detections(Detection.Inferred(names, results)).value) == NotDetected
  {
    Detection.NoBoxesNoDetections(names, results);
  }

  /**
   * The notifier receives the configured receiver, the form's four fields
   * and the upload's URL, so its attachment is the bytes downloaded from
   * that URL, named by the last segment of it.
   */
  lemma NotifierGetsStoredPhoto(form: Form, receiver: Option<string>, imageUrl: string)
    ensures var report := NotifyReport(form, receiver, imageUrl);
      Mailing.Lookup(report, "image_url") == Mailing.Str(imageUrl)
      && Mailing.Lookup(report, "recipient_email") == EnvValue(receiver)
      && Mailing.FieldText(report, "province") == form.province
      && Mailing.FieldText(report, "city") == form.city
      && Mailing.FieldText(report, "district") == form.district
      && Mailing.FieldText(report, "description") == form.description
  {
  }
}
