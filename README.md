# AcciVision backend: detection-and-notify pipeline

This project is a Dafny model of the core of the AcciVision backend. One
incoming accident report, `process_detection` in `main.py`, runs these steps:

1. It stores the uploaded photo in Cloudinary under `accivision/uploads`,
   with the public id `<userId>_<unique suffix>`.
2. It runs the YOLO detector on the image bytes (`detect_objects` in
   `detection.py`).
3. It reports `"detected"` only when the first detection is of class
   `"car-crash"`.
4. Only then does it call the notifier (`send_email` in `mailing.py`),
   passing a report dictionary built from the form, the configured receiver
   and the photo's `secure_url`.
5. It answers with the status, the notifier's outcome (or a fixed "skipped"
   outcome) and the photo's URL. An exception in any stage becomes the one
   error result.

The outside world enters as inputs:

- the upload's outcome;
- the detector's inference outcome (its class-name table and per-result box
  lists, or the exception raised);
- the environment variables;
- the outcome of the image download;
- the outcome of each SMTP step.

Every call made to those collaborators is recorded in a trace.

Files:

- `outcomes.dfy`: `Option`, `Result` and a byte type.
- `detection.dfy`: the flattening loop of `detect_objects`. A nested loop
  appends one entry per box. `DetectObjects` is proved equal to the function
  `Detections`, and the properties of that function (length, order, class
  lookup, first entry, the first `KeyError`) are lemmas.
- `mailing.py` is modelled in `mailing.dfy`:
  - the guard clauses, subject and body template;
  - the attachment name given by `os.path.basename`;
  - the in-place `MIMEMultipart` as a class;
  - the `try` block as a plan of steps run until the first one raises.

  `SendEmail` is proved equal to the function `EmailOutcome`. Properties of
  that function are lemmas.
- `main.dfy`: `process_detection`. The method `ProcessDetection` is proved
  equal to the function `Handle` (its result and its call trace). The
  ordering and short-circuit rules are lemmas about `Handle`.

The error result `Failure(PipelineError)` stands for the `HTTPException`
raised by the catch-all handler. It records the stage that raised: storage,
failed inference, or a class index missing from the model's `names`.

The code does not check the upload's URL before passing it on. An empty
`secure_url` would reach the notifier, which would then send without an
attachment. The model keeps that behaviour.

## Model

| member | source | states |
|---|---|---|
| Detection.Truncate | detection.py:22 | `int(box.cls)` truncates toward zero: for non-negative x the result is the largest integer not above x, and for negative x the smallest not below it |
| Detection.DetectObjects | detection.py:18-27 | the nested loop that appends one entry per box of every result returns exactly `Detections(inference)`: the inference error, the `KeyError` of the first failing lookup, or the full list |
| Detection.DetectionsLength | detection.py:18-27 | when inference and every lookup succeed, the output has exactly one entry per box over all results |
| Detection.DetectionsCorrect | detection.py:18-27 | on success, the list has one entry per box over all results. Box j of result i becomes the entry at position TotalBoxes(results[..i]) + j, with class `names[int(cls)]` and its confidence and bbox unchanged |
| Detection.FlattenLength | detection.py:19-25 | the flattened box list is as long as the total number of boxes over all results |
| Detection.FlattenIndex | detection.py:19-25 | box j of result i comes after every box of the earlier results: results in order, boxes within a result in order |
| Detection.EntriesSuccess | detection.py:21-25 | the lookups succeed exactly when every box's class index is a key of `names`. Then entry k is built from box k |
| Detection.EntriesFailure | detection.py:22 | a failed lookup reports the class index of the first box whose index is not in `names`, and every earlier box's lookup succeeded |
| Detection.EntriesFailureSticks | detection.py:19-22 | once a lookup has raised, the boxes after it do not change the outcome |
| Detection.NoBoxesNoDetections | detection.py:18-27 | no results, or only results without boxes, give the empty list |
| Detection.FirstDetection | detection.py:19-25 | the first entry comes from the first box of the first non-empty result |
| Mailing.FieldText | mailing.py:37-40 | a body field reads "N/A" when its key is absent and the stored text when present |
| Mailing.BodyLines | mailing.py:35-41 | when no field of the body contains a line break, its lines are a blank line, "Laporan Baru:", then province, city, district and description in that order, and a final indented line |
| Mailing.SplitJoinLines | mailing.py:35-41 | splitting the joined template lines at line breaks gives the lines back, when none contains a line break |
| Mailing.Basename | mailing.py:55 | the attachment's filename is the longest suffix of the URL without `/`. The URL has a `/` just before that suffix or is the suffix |
| Mailing.MimeMultipart.constructor | mailing.py:45 | a new message holds the two headers `MIMEMultipart()` sets itself, `Content-Type: multipart/mixed` and `MIME-Version: 1.0`, and no parts |
| Mailing.MimeMultipart.SetHeader | mailing.py:46-48 | setting a header appends it after the existing headers and leaves the parts unchanged |
| Mailing.MimeMultipart.Attach | mailing.py:49 | attaching a part appends it after the existing parts and leaves the headers unchanged |
| Mailing.FetchOutcome | mailing.py:53-54 | the download step (`requests.get`, then `raise_for_status` as `RaisesForStatus`) succeeds exactly for a response whose status is not 400 to 599, the client and server errors. Otherwise it raises the request's exception or the status's HTTPError |
| Mailing.RunSpec | mailing.py:43-80 | first failure wins: the calls made are a prefix of the planned ones and all but the last succeeded. Either the last one raised the reported error, or every planned call was made and succeeded |
| Mailing.RunPrefix | mailing.py:43-80 | when step k is the first to raise, the run makes exactly the calls of steps 0..k and reports step k's error |
| Mailing.SendEmail | mailing.py:14-80 | the guards, message construction, optional download and SMTP session make exactly the status and calls of `EmailOutcome` |
| Mailing.Session | mailing.py:68-76 | connect, STARTTLS, login, sendmail and quit run in that order, and each runs only if the previous ones succeeded |
| Mailing.OutcomeOfPlan | mailing.py:43-80 | past the guards, the calls are those of the run. The status is "Email sent successfully." when no step raised, and otherwise "Failed to send email: " with the first error |
| Mailing.GuardOrder | mailing.py:22-31 | missing or empty credentials give "Sender email or password not configured." and no call. Credentials with a missing or empty recipient give "Recipient email is missing." and no call. Otherwise at least one call is made |
| Mailing.SentOnlyAfterEveryStep | mailing.py:52-76 | success is reported exactly when both guards pass, the download succeeds when there is an image URL, and all five SMTP steps succeed |
| Mailing.SentSession | mailing.py:69-76 | a successful send reports "Email sent successfully.", and its last five calls are connect to smtp.gmail.com:587, STARTTLS, login, sendmail of the composed message, and quit |
| Mailing.FailuresAreReported | mailing.py:78-80 | a failure inside the `try` block is returned, not raised: the status is "Failed to send email: " plus the error of the first step that raised, and that step is the last call made |
| Mailing.DownloadFailureStopsSend | mailing.py:52-54 | with an image URL, a raised download or an HTTP error status fails the send. The download is the only call, and no SMTP connection is opened |
| Mailing.DownloadOnlyWithUrl | mailing.py:52-53 | the image is downloaded exactly when the image URL is truthy, and then first. Otherwise the first call is the SMTP connection. No later call is a download |
| Mailing.SentMessage | mailing.py:34-65 | the sent message has the headers `Content-Type: multipart/mixed`, `MIME-Version: 1.0`, From, To and the subject "Laporan Kecelakaan Baru", in that order, with the body as its first part. A second part appears exactly when the image URL is truthy; it holds the downloaded bytes under `attachment; filename=` plus the URL's basename |
| Mailing.PlanShape | mailing.py:52-74 | the planned steps are the download (only with an image URL) followed by the five SMTP steps. Only the fourth SMTP step is a sendmail, and only the first step can be a download |
| App.DetectionStatus | main.py:69 | the status is "detected" or "not_detected". It is "detected" exactly when the list is non-empty and the first entry's class is "car-crash" |
| App.PublicIdParts | main.py:52-53 | the public id is the user id, `_`, then the suffix. Different suffixes give different ids |
| App.ProcessDetection | main.py:36-96 | the upload, read, detection, conditional notification and response give exactly the result and the call trace of `Handle` |
| App.NotifyCrash | main.py:75-82 | the crash branch calls the notifier once with the request's report, and returns its status and calls unchanged |
| App.StoredFirst | main.py:50-56 | the first call stores the photo under `accivision/uploads` with id `userId_suffix`. A failed upload ends the request with that error as its only result and no further call |
| App.DetectedSecond | main.py:61-66 | after a successful upload, the second call runs detection on the image bytes. A failed detection ends the request with that error and no notification |
| App.ErrorsOnlyFromStages | main.py:44-96 | the request succeeds exactly when the upload and the detection succeed. The response's URL is then the upload's `secure_url` and its status is the decision on the detections |
| App.NotifiedOnlyOnCrash | main.py:73-86 | "not_detected" gives the fixed "No email sent because no car crash detected." outcome and no notifier call. "detected" gives one notifier call, third, with the request's report, and its outcome reported unchanged |
| App.NotifyAtMostOnce | main.py:73-82 | any notifier call in the trace is at position 2, and only on a successful "detected" request |
| App.OnlyFirstDetectionCounts | main.py:69 | entries after the first never change the status |
| App.LaterCrashIgnored | main.py:69 | a list whose first entry is of another class gives "not_detected", whatever "car-crash" entry sits at a later position k |
| App.EmptyNotDetected | main.py:69 | an empty detection list gives "not_detected" |
| App.DecidedByFirstBox | main.py:66-69 | with the detector, "detected" is reported exactly when the first box of the first result with boxes has a class named "car-crash" |
| App.NoBoxesNotDetected | main.py:66-69 | results without boxes give "not_detected" |
| App.NotifierGetsStoredPhoto | main.py:75-82 | the notifier's report carries the upload's URL, the configured receiver and the four form fields |

## Left out

- FastAPI setup, CORS, form parsing, the response model's validation, the
  `HTTPException` status code and the uvicorn start-up: HTTP plumbing. The
  error result only records which stage raised.
- The text of the caught exception, `str(e)`, is not rendered into the
  error detail. Exceptions are carried as the text the step raised.
- Cloudinary configuration and upload internals: the upload is an input,
  `Uploaded(secureUrl)` or `UploadFailed(error)`. A response without a
  `secure_url` key counts as a failed upload.
- `uuid4()` is an input: the unique suffix of the public id.
- The `seek(0)` and `await image.read()` stream handling: the form carries
  the uploaded bytes, and detection reads them unchanged.
- PIL decoding, numpy conversion, loading the YOLO weights and running
  inference: the outcome of those steps is an input. Confidence and box
  coordinates are carried unchanged, and no numeric claim is made about them.
- `load_dotenv` and `os.getenv`: the environment values are optional
  strings given as inputs.
- The network side of `requests.get`, SMTP, TLS, and the MIME and base64
  serialisation of the message. Each is an outside step whose outcome is an
  input. The message is modelled as its top-level headers and its parts,
  before `as_string()`. The wording of the `HTTPError` that `raise_for_status`
  raises is carried in the response outcome.
- `MIMEText`, `MIMEBase`, `set_payload`, `encode_base64` and `add_header` are
  not modelled as steps that can fail. Only the download and the SMTP calls
  can raise inside the `try` block.
- Mailing.MimeMultipart.constructor: the message's headers are the two that
  `MIMEMultipart()` sets itself and the three that `send_email` sets. The
  multipart boundary, chosen only when serialising, is not modelled. Neither
  are the headers that `MIMEText` and `MIMEBase` give each part (content type,
  charset, MIME version, transfer encoding): a part is its text, or its
  payload and `Content-Disposition`.
- Mailing.BodyLines: the body's line-by-line reading is stated only for
  fields without line breaks. A field holding a line break, such as a
  multi-line description from the form, still fills the same template
  (`Body` joins the template lines), but no lemma describes the resulting
  lines.
- A download or SMTP call that never returns: `requests.get` and
  `smtplib.SMTP` are called without a timeout and can block forever. In the
  model every outside step either completes or raises.
- An SMTP connection left open after a failing step: the trace shows that no
  `quit` call is made, but closing sockets is not modelled.
- `print` logging everywhere, and the `async` handling of requests. Each
  request is independent.
