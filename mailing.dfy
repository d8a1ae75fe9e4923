/**
 * The notifier (mailing.py, `send_email`). The credentials read from the
 * environment, the report dictionary and the outcomes of the HTTP download
 * and of each SMTP step are inputs; the guard clauses, the subject and body,
 * the attachment's filename and the conversion of every failure into an
 * outcome value are modelled, and each outside call is recorded in a trace.
 */
module Mailing {
  import opened Outcomes

  /** A value stored in the report dictionary: Python's `None` or a string. */
  datatype Value = Null | Str(text: string)

  /** The `report_details` dictionary. */
  type Report = map<string, Value>

  /** The dictionary `send_email` returns: `{"success": ..., "message": ...}`. */
  datatype EmailStatus = EmailStatus(success: bool, message: string)

  /** `os.getenv("EMAIL_SENDER")` and `os.getenv("EMAIL_PASSWORD")`. */
  datatype Credentials = Credentials(sender: Option<string>, password: Option<string>)

  const Subject := "Laporan Kecelakaan Baru"
  const NotConfigured := EmailStatus(false, "Sender email or password not configured.")
  const MissingRecipient := EmailStatus(false, "Recipient email is missing.")
  const Sent := EmailStatus(true, "Email sent successfully.")
  const FailurePrefix := "Failed to send email: "
  const SmtpHost := "smtp.gmail.com"
  const SmtpPort := 587

  /** The outcome reported when a step inside the `try` block raised `error`. */
  function Failed(error: string): EmailStatus {
    EmailStatus(false, FailurePrefix + error)
  }

  /** `report.get(key)`: an absent key reads as `None`. */
  function Lookup(report: Report, key: string): Value {
    if key in report then report[key] else Null
  }

  /** Python truthiness of a dictionary value. */
  predicate Truthy(v: Value) {
    v.Str? && v.text != ""
  }

  /** Python truthiness of an environment variable. */
  predicate IsSet(v: Option<string>) {
    v.Some? && v.value != ""
  }

  /** How an f-string renders a dictionary value. */
  function Show(v: Value): string {
    match v
    case Null => "None"
    case Str(s) => s
  }

  /** `report.get(key, "N/A")` rendered into the body. */
  function FieldText(report: Report, key: string): (text: string)
    ensures key !in report ==> text == "N/A"
    ensures key in report && report[key].Str? ==> text == report[key].text
  {
    if key in report then Show(report[key]) else "N/A"
  }

  /** The lines of the plain-text body: a fixed template with the four report fields. */
  function BodyLineList(report: Report): seq<string> {
    ["",
     "    Laporan Baru:",
     "    Provinsi: " + FieldText(report, "province"),
     "    Kota: " + FieldText(report, "city"),
     "    Kecamatan: " + FieldText(report, "district"),
     "    Deskripsi: " + FieldText(report, "description"),
     "    "]
  }

  /** `"\n".join(lines)`. */
  function JoinLines(lines: seq<string>): string
    requires |lines| > 0
  {
    if |lines| == 1 then lines[0] else lines[0] + "\n" + JoinLines(lines[1..])
  }

  /** The body f-string: the template lines joined by line breaks. */
  function Body(report: Report): string {
    JoinLines(BodyLineList(report))
  }

  /** `s.split("\n")`: the lines of a text. */
  function SplitLines(s: string): (lines: seq<string>)
    ensures |lines| > 0
  {
    if s == [] then [[]]
    else
      var rest := SplitLines(s[1..]);
      if s[0] == '\n' then [[]] + rest else [[s[0]] + rest[0]] + rest[1..]
  }

  lemma {:induction false} SplitSingleLine(a: string)
    requires '\n' !in a
    ensures SplitLines(a) == [a]
  {
    if a != [] {
      SplitSingleLine(a[1..]);
      assert [a[0]] + a[1..] == a;
    }
  }

  lemma {:induction false} SplitJoin(a: string, b: string)
    requires '\n' !in a
    ensures SplitLines(a + "\n" + b) == [a] + SplitLines(b)
  {
    var s := a + "\n" + b;
    if a == [] {
      assert s[1..] == b;
    } else {
      assert s[1..] == a[1..] + "\n" + b;
      SplitJoin(a[1..], b);
      assert [a[0]] + a[1..] == a;
    }
  }

  /** Splitting lines that were joined gives them back, when none holds a line break. */
  lemma {:induction false} SplitJoinLines(lines: seq<string>)
    requires |lines| > 0
    requires forall k :: 0 <= k < |lines| ==> '\n' !in lines[k]
    ensures SplitLines(JoinLines(lines)) == lines
    decreases |lines|
  {
    if |lines| == 1 {
      SplitSingleLine(lines[0]);
    } else {
      SplitJoin(lines[0], JoinLines(lines[1..]));
      SplitJoinLines(lines[1..]);
    }
  }

  lemma NoBreakJoin(x: string, y: string)
    requires '\n' !in x && '\n' !in y
    ensures '\n' !in x + y
  {
  }

  /**
   * When no field contains a line break, the body reads back as a blank
   * line, the heading, one line per field in the order province, city,
   * district, description, and a last indented line.
   */
  lemma BodyLines(report: Report)
    requires '\n' !in FieldText(report, "province") && '\n' !in FieldText(report, "city")
    requires '\n' !in FieldText(report, "district") && '\n' !in FieldText(report, "description")
    ensures SplitLines(Body(report)) == [
      "",
      "    Laporan Baru:",
      "    Provinsi: " + FieldText(report, "province"),
      "    Kota: " + FieldText(report, "city"),
      "    Kecamatan: " + FieldText(report, "district"),
      "    Deskripsi: " + FieldText(report, "description"),
      "    "]
  {
    NoBreakJoin("    Provinsi: ", FieldText(report, "province"));
    NoBreakJoin("    Kota: ", FieldText(report, "city"));
    NoBreakJoin("    Kecamatan: ", FieldText(report, "district"));
    NoBreakJoin("    Deskripsi: ", FieldText(report, "description"));
    SplitJoinLines(BodyLineList(report));
  }

  /** `os.path.basename(path)`: the text after the last `/`. */
  function Basename(path: string): (name: string)
    ensures '/' !in name
    ensures |name| <= |path| && path[|path| - |name|..] == name
    ensures |name| < |path| ==> path[|path| - |name| - 1] == '/'
  {
    if path == [] || path[|path| - 1] == '/' then []
    else Basename(path[..|path| - 1]) + [path[|path| - 1]]
  }

  /** The two kinds of parts the message can hold. */
  datatype Part = PlainText(text: string) | OctetStream(payload: seq<byte>, disposition: string)

  /** The content of the message handed to `sendmail`. */
  datatype Mail = Mail(headers: seq<(string, string)>, parts: seq<Part>)

  /** The `Content-Disposition` header of the attachment. */
  function Disposition(filename: string): string {
    "attachment; filename=" + filename
  }

  /**
   * The headers `MIMEMultipart()` sets itself, before any of its own: the
   * multipart content type (its boundary is chosen only when serialising)
   * and the MIME version.
   */
  const MultipartHeaders := [("Content-Type", "multipart/mixed"), ("MIME-Version", "1.0")]

  /** The `MIMEMultipart` message, built up in place. */
  class MimeMultipart {
    var headers: seq<(string, string)>
    var parts: seq<Part>

    constructor ()
      ensures headers == MultipartHeaders && parts == []
    {
      headers := MultipartHeaders;
      parts := [];
    }

    /** `message[name] = value` adds a header after the existing ones. */
    method SetHeader(name: string, value: string)
      modifies this
      ensures headers == old(headers) + [(name, value)] && parts == old(parts)
    {
      headers := headers + [(name, value)];
    }

    /** `message.attach(part)`. */
    method Attach(part: Part)
      modifies this
      ensures parts == old(parts) + [part] && headers == old(headers)
    {
      parts := parts + [part];
    }

    /** What `as_string()` serialises; the serialisation itself is not modelled. */
    function Content(): Mail
      reads this
    {
      Mail(headers, parts)
    }
  }

  /** The outcome of one outside call made inside the `try` block. */
  datatype StepResult = Done | Raised(error: string)

  /**
   * The outcome of `requests.get(image_url)`: it raised, or it gave a
   * response with a status code, a body and the text of the HTTPError that
   * `raise_for_status` raises for that status.
   */
  datatype FetchResult =
    | Response(status: int, content: seq<byte>, statusError: string)
    | FetchRaised(error: string)

  /** The outcomes of the SMTP session's steps. */
  datatype Smtp = Smtp(connect: StepResult, starttls: StepResult, login: StepResult,
                       sendmail: StepResult, quit: StepResult)

  /** The outside calls `send_email` makes. */
  datatype MailCall =
    | HttpGet(url: string)
    | Connect(host: string, port: int)
    | StartTls
    | Login(user: string, password: string)
    | SendMail(from: string, to: string, mail: Mail)
    | Quit

  /** `raise_for_status` raises for 4xx and 5xx statuses. */
  predicate RaisesForStatus(status: int) {
    400 <= status < 600
  }

  /** The download step: `requests.get` followed by `raise_for_status`. */
  function FetchStep(fetch: FetchResult): StepResult {
    match fetch
    case FetchRaised(e) => Raised(e)
    case Response(status, _, e) => if RaisesForStatus(status) then Raised(e) else Done
  }

  /**
   * The download step succeeds exactly when `requests.get` returned a
   * response whose status is neither a client error (4xx) nor a server
   * error (5xx); otherwise it raises the exception or the status's HTTPError.
   */
  lemma FetchOutcome(fetch: FetchResult)
    ensures FetchStep(fetch) == Done <==> fetch.Response? && !RaisesForStatus(fetch.status)
    ensures fetch.FetchRaised? ==> FetchStep(fetch) == Raised(fetch.error)
    ensures fetch.Response? && RaisesForStatus(fetch.status) ==> FetchStep(fetch) == Raised(fetch.statusError)
  {
  }

  /** One planned outside call with the outcome it will have. */
  datatype Step = Step(call: MailCall, result: StepResult)

  /** The calls made and the error of the step that raised, if one did. */
  datatype Attempt = Attempt(calls: seq<MailCall>, error: Option<string>)

  /** Runs steps in order until the first one that raises. */
  function Run(steps: seq<Step>): Attempt {
    if steps == [] then Attempt([], None)
    else if steps[0].result.Raised? then Attempt([steps[0].call], Some(steps[0].result.error))
    else
      var rest := Run(steps[1..]);
      Attempt([steps[0].call] + rest.calls, rest.error)
  }

  /**
   * First failure wins: the calls made are a prefix of the planned ones,
   * every one of them but the last succeeded, and either the last one made
   * raised the reported error or all planned calls were made and succeeded.
   */
  lemma {:induction false} RunSpec(steps: seq<Step>)
    ensures var a := Run(steps);
      |a.calls| <= |steps|
      && (forall k :: 0 <= k < |a.calls| ==> a.calls[k] == steps[k].call)
      && (a.error.None? ==> |a.calls| == |steps| && forall k :: 0 <= k < |steps| ==> steps[k].result.Done?)
      && (a.error.Some? ==>
            0 < |a.calls| && steps[|a.calls| - 1].result == Raised(a.error.value)
            && forall k :: 0 <= k < |a.calls| - 1 ==> steps[k].result.Done?)
    decreases |steps|
  {
    if steps != [] && steps[0].result.Done? {
      RunSpec(steps[1..]);
    }
  }

  /** Taking one step: stop if it raised, otherwise go on with the rest. */
  lemma RunStep(s: Step, rest: seq<Step>)
    ensures Run([s] + rest) ==
      if s.result.Raised? then Attempt([s.call], Some(s.result.error))
      else Attempt([s.call] + Run(rest).calls, Run(rest).error)
  {
    assert ([s] + rest)[1..] == rest;
  }

  /** Running from step `i` on: stop if it raises, otherwise go on with the steps after it. */
  lemma RunAt(steps: seq<Step>, i: nat)
    requires i < |steps|
    ensures Run(steps[i..]) ==
      if steps[i].result.Raised? then Attempt([steps[i].call], Some(steps[i].result.error))
      else Attempt([steps[i].call] + Run(steps[i + 1..]).calls, Run(steps[i + 1..]).error)
  {
    assert steps[i..][1..] == steps[i + 1..];
  }

  /** The message as it stands when `sendmail` is called. */
  function Composed(sender: string, recipient: string, report: Report, fetch: FetchResult): Mail {
    var url := Lookup(report, "image_url");
    var text := [PlainText(Body(report))];
    Mail(MultipartHeaders + [("From", sender), ("To", recipient), ("Subject", Subject)],
         if Truthy(url) && fetch.Response?
         then text + [OctetStream(fetch.content, Disposition(Basename(url.text)))]
         else text)
  }

  /** The SMTP session: connect, STARTTLS, login, sendmail, quit. */
  function SessionSteps(sender: string, password: string, recipient: string, mail: Mail, smtp: Smtp): seq<Step> {
    [Step(Connect(SmtpHost, SmtpPort), smtp.connect), Step(StartTls, smtp.starttls),
     Step(Login(sender, password), smtp.login), Step(SendMail(sender, recipient, mail), smtp.sendmail),
     Step(Quit, smtp.quit)]
  }

  /** The steps of the `try` block in order: the download when there is an image URL, then the SMTP session. */
  function Plan(sender: string, password: string, recipient: string, report: Report,
                fetch: FetchResult, smtp: Smtp): seq<Step>
  {
    var url := Lookup(report, "image_url");
    (if Truthy(url) then [Step(HttpGet(url.text), FetchStep(fetch))] else [])
    + SessionSteps(sender, password, recipient, Composed(sender, recipient, report, fetch), smtp)
  }

  /** The returned status together with the outside calls made. */
  datatype Notification = Notification(status: EmailStatus, calls: seq<MailCall>)

  /** What `send_email` returns and which outside calls it makes. */
  function EmailOutcome(creds: Credentials, report: Report, fetch: FetchResult, smtp: Smtp): Notification {
    var recipient := Lookup(report, "recipient_email");
    if !IsSet(creds.sender) || !IsSet(creds.password) then Notification(NotConfigured, [])
    else if !Truthy(recipient) then Notification(MissingRecipient, [])
    else
      var a := Run(Plan(creds.sender.value, creds.password.value, recipient.text, report, fetch, smtp));
      Notification(if a.error.None? then Sent else Failed(a.error.value), a.calls)
  }

  /** `send_email`: the guard clauses, then the `try` block with its steps. */
  method SendEmail(creds: Credentials, report: Report, fetch: FetchResult, smtp: Smtp)
    returns (status: EmailStatus, calls: seq<MailCall>)
    ensures Notification(status, calls) == EmailOutcome(creds, report, fetch, smtp)
  {
    var recipient := Lookup(report, "recipient_email");
    var imageUrl := Lookup(report, "image_url");
    if !IsSet(creds.sender) || !IsSet(creds.password) {
      return NotConfigured, [];
    }
    if !Truthy(recipient) {
      return MissingRecipient, [];
    }
    var sender, password := creds.sender.value, creds.password.value;
    var subject := Subject;
    var body := Body(report);
    ghost var plan := Plan(sender, password, recipient.text, report, fetch, smtp);
    ghost var mail := Composed(sender, recipient.text, report, fetch);
    // The steps not taken yet; the calls made so far and those to come make up Run(plan).
    ghost var todo := SessionSteps(sender, password, recipient.text, mail, smtp);
    calls := [];

    var message := new MimeMultipart();
    message.SetHeader("From", sender);
    message.SetHeader("To", recipient.text);
    message.SetHeader("Subject", subject);
    message.Attach(PlainText(body));
    assert message.headers == mail.headers;

    if Truthy(imageUrl) {
      RunStep(plan[0], todo);
      assert plan == [plan[0]] + todo;
      calls := [HttpGet(imageUrl.text)];
      match fetch
      case FetchRaised(e) =>
        return Failed(e), calls;
      case Response(code, content, statusError) =>
        if RaisesForStatus(code) {
          return Failed(statusError), calls;
        }
        var filename := Basename(imageUrl.text);
        message.Attach(OctetStream(content, Disposition(filename)));
    } else {
      assert plan == todo;
    }
    assert message.Content() == mail;
    assert Run(plan) == Attempt(calls + Run(todo).calls, Run(todo).error);

    var sessionCalls, error := Session(sender, password, recipient.text, message.Content(), smtp);
    assert Run(plan) == Attempt(calls + sessionCalls, error);
    calls := calls + sessionCalls;
    status := if error.None? then Sent else Failed(error.value);
  }

  /** The SMTP session of the `try` block: each step runs only if the previous ones succeeded. */
  method Session(sender: string, password: string, recipient: string, mail: Mail, smtp: Smtp)
    returns (calls: seq<MailCall>, error: Option<string>)
    ensures Attempt(calls, error) == Run(SessionSteps(sender, password, recipient, mail, smtp))
  {
    ghost var steps := SessionSteps(sender, password, recipient, mail, smtp);
    assert steps[0..] == steps;
    RunAt(steps, 0);
    RunAt(steps, 1);
    RunAt(steps, 2);
    RunAt(steps, 3);
    RunAt(steps, 4);
    calls := [Connect(SmtpHost, SmtpPort)];
    if smtp.connect.Raised? {
      return calls, Some(smtp.connect.error);
    }
    calls := calls + [StartTls];
    if smtp.starttls.Raised? {
      return calls, Some(smtp.starttls.error);
    }
    calls := calls + [Login(sender, password)];
    if smtp.login.Raised? {
      return calls, Some(smtp.login.error);
    }
    calls := calls + [SendMail(sender, recipient, mail)];
    if smtp.sendmail.Raised? {
      return calls, Some(smtp.sendmail.error);
    }
    calls := calls + [Quit];
    if smtp.quit.Raised? {
      return calls, Some(smtp.quit.error);
    }
    error := None;
  }

  /** "Both guard clauses pass": credentials set and a recipient given. */
  predicate GuardsPass(creds: Credentials, report: Report) {
    IsSet(creds.sender) && IsSet(creds.password) && Truthy(Lookup(report, "recipient_email"))
  }

  /** The steps of the `try` block for inputs that pass the guard clauses. */
  function TrySteps(creds: Credentials, report: Report, fetch: FetchResult, smtp: Smtp): seq<Step>
    requires GuardsPass(creds, report)
  {
    Plan(creds.sender.value, creds.password.value, Lookup(report, "recipient_email").text, report, fetch, smtp)
  }

  /**
   * The credentials are checked first and the recipient second; a failed
   * guard returns its fixed outcome and nothing else happens.
   */
  lemma GuardOrder(creds: Credentials, report: Report, fetch: FetchResult, smtp: Smtp)
    ensures !IsSet(creds.sender) || !IsSet(creds.password) ==>
      EmailOutcome(creds, report, fetch, smtp) == Notification(NotConfigured, [])
    ensures IsSet(creds.sender) && IsSet(creds.password) && !Truthy(Lookup(report, "recipient_email")) ==>
      EmailOutcome(creds, report, fetch, smtp) == Notification(MissingRecipient, [])
    ensures GuardsPass(creds, report) ==> 0 < |EmailOutcome(creds, report, fetch, smtp).calls|
  {
  }

  /**
   * "Email sent successfully." is reported exactly when the guards pass, the
   * download (if there is an image URL) succeeds and every SMTP step
   * succeeds; the session then ends with connect, STARTTLS, login, sendmail
   * and quit, in that order.
   */
  lemma SentOnlyAfterEveryStep(creds: Credentials, report: Report, fetch: FetchResult, smtp: Smtp)
    ensures var o := EmailOutcome(creds, report, fetch, smtp);
      o.status.success <==>
        GuardsPass(creds, report)
        && (Truthy(Lookup(report, "image_url")) ==> FetchStep(fetch) == Done)
        && smtp.connect == Done && smtp.starttls == Done && smtp.login == Done
        && smtp.sendmail == Done && smtp.quit == Done
  {
    if GuardsPass(creds, report) {
      var sender, recipient := creds.sender.value, Lookup(report, "recipient_email").text;
      var plan := TrySteps(creds, report, fetch, smtp);
      var o := PlanShape(sender, creds.password.value, recipient, report, fetch, smtp);
      OutcomeOfPlan(creds, report, fetch, smtp);
      RunSpec(plan);
      EveryStepDone(plan, o);
    }
  }

  /**
   * A successful send reports "Email sent successfully." and its session
   * ends with connect, STARTTLS, login, sendmail and quit, in that order.
   */
  lemma SentSession(creds: Credentials, report: Report, fetch: FetchResult, smtp: Smtp)
    requires EmailOutcome(creds, report, fetch, smtp).status.success
    ensures GuardsPass(creds, report)
    ensures var o := EmailOutcome(creds, report, fetch, smtp);
      o.status == Sent && 5 <= |o.calls| &&
      var sender, recipient := creds.sender.value, Lookup(report, "recipient_email").text;
      o.calls[|o.calls| - 5..] == [Connect(SmtpHost, SmtpPort), StartTls, Login(sender, creds.password.value),
                                   SendMail(sender, recipient, Composed(sender, recipient, report, fetch)), Quit]
  {
    var sender, recipient := creds.sender.value, Lookup(report, "recipient_email").text;
    var plan := TrySteps(creds, report, fetch, smtp);
    var o := PlanShape(sender, creds.password.value, recipient, report, fetch, smtp);
    OutcomeOfPlan(creds, report, fetch, smtp);
    RunSpec(plan);
    assert Run(plan).calls[o..] == [plan[o].call, plan[o + 1].call, plan[o + 2].call, plan[o + 3].call, plan[o + 4].call];
  }

  /** Past the guard clauses, the outcome is the run of the plan: sent when no step raised, else the first error. */
  lemma OutcomeOfPlan(creds: Credentials, report: Report, fetch: FetchResult, smtp: Smtp)
    requires GuardsPass(creds, report)
    ensures var o, a := EmailOutcome(creds, report, fetch, smtp), Run(TrySteps(creds, report, fetch, smtp));
      o.calls == a.calls
      && (a.error.None? ==> o.status == Sent)
      && (a.error.Some? ==> o.status == Failed(a.error.value) && !o.status.success)
  {
  }

  /** Every step of a plan of the download and five SMTP steps is done exactly when each of the six (or five) is. */
  lemma EveryStepDone(plan: seq<Step>, o: nat)
    requires o <= 1 && |plan| == o + 5
    ensures (forall k :: 0 <= k < |plan| ==> plan[k].result.Done?) <==>
      (o == 1 ==> plan[0].result.Done?)
      && plan[o].result.Done? && plan[o + 1].result.Done? && plan[o + 2].result.Done?
      && plan[o + 3].result.Done? && plan[o + 4].result.Done?
  {
  }

  /**
   * A failure inside the `try` block never escapes: the outcome is
   * `success: false` with the message "Failed to send email: " followed by
   * the error of the first step that raised, and that step is the last call
   * made.
   */
  lemma FailuresAreReported(creds: Credentials, report: Report, fetch: FetchResult, smtp: Smtp)
    requires GuardsPass(creds, report)
    ensures var o := EmailOutcome(creds, report, fetch, smtp);
      var plan := TrySteps(creds, report, fetch, smtp);
      !o.status.success ==>
        exists k :: 0 <= k < |plan| && plan[k].result.Raised?
          && (forall j :: 0 <= j < k ==> plan[j].result == Done)
          && o.status == Failed(plan[k].result.error)
          && o.calls == Run(plan[..k + 1]).calls
          && |o.calls| == k + 1
  {
    var plan := TrySteps(creds, report, fetch, smtp);
    var a := Run(plan);
    RunSpec(plan);
    if a.error.Some? {
      var k := |a.calls| - 1;
      RunPrefix(plan, k);
    }
  }

  /** The calls made up to the first failing step are those of the steps up to it. */
  lemma {:induction false} RunPrefix(steps: seq<Step>, k: nat)
    requires k < |steps| && steps[k].result.Raised?
    requires forall j :: 0 <= j < k ==> steps[j].result == Done
    ensures Run(steps) == Run(steps[..k + 1])
    ensures |Run(steps).calls| == k + 1 && Run(steps).error == Some(steps[k].result.error)
    decreases k
  {
    if k > 0 {
      RunPrefix(steps[1..], k - 1);
      assert steps[1..][..k] == steps[..k + 1][1..];
    }
  }

  /**
   * With an image URL, a failed download (an exception or an HTTP error
   * status) fails the whole send: the download is the only call made and
   * no SMTP connection is opened.
   */
  lemma DownloadFailureStopsSend(creds: Credentials, report: Report, fetch: FetchResult, smtp: Smtp)
    requires GuardsPass(creds, report) && Truthy(Lookup(report, "image_url"))
    requires fetch.FetchRaised? || RaisesForStatus(fetch.status)
    ensures EmailOutcome(creds, report, fetch, smtp) ==
      Notification(Failed(if fetch.FetchRaised? then fetch.error else fetch.statusError),
                   [HttpGet(Lookup(report, "image_url").text)])
  {
    var plan := TrySteps(creds, report, fetch, smtp);
    RunAt(plan, 0);
  }

  /**
   * The image is downloaded exactly when the report has an image URL, and
   * then before anything else; otherwise the first call is the SMTP connection.
   */
  lemma DownloadOnlyWithUrl(creds: Credentials, report: Report, fetch: FetchResult, smtp: Smtp)
    requires GuardsPass(creds, report)
    ensures var o := EmailOutcome(creds, report, fetch, smtp);
      var url := Lookup(report, "image_url");
      0 < |o.calls|
      && (Truthy(url) ==> o.calls[0] == HttpGet(url.text))
      && (!Truthy(url) ==> o.calls[0] == Connect(SmtpHost, SmtpPort))
      && (forall k :: 0 < k < |o.calls| ==> !o.calls[k].HttpGet?)
  {
    var plan := TrySteps(creds, report, fetch, smtp);
    var o := PlanShape(creds.sender.value, creds.password.value, Lookup(report, "recipient_email").text,
                       report, fetch, smtp);
    OutcomeOfPlan(creds, report, fetch, smtp);
    RunSpec(plan);
  }

  /**
   * The message handed to `sendmail` has the multipart content type and MIME
   * version headers, then the From, To and fixed Subject headers, and the
   * body as its first part; it carries a second part exactly
   * when there is an image URL, holding the downloaded bytes under the
   * filename that ends the URL.
   */
  lemma SentMessage(creds: Credentials, report: Report, fetch: FetchResult, smtp: Smtp, k: nat)
    requires k < |EmailOutcome(creds, report, fetch, smtp).calls|
    requires EmailOutcome(creds, report, fetch, smtp).calls[k].SendMail?
    ensures GuardsPass(creds, report)
    ensures var call := EmailOutcome(creds, report, fetch, smtp).calls[k];
      var url := Lookup(report, "image_url");
      call.from == creds.sender.value && call.to == Lookup(report, "recipient_email").text
      && call.mail.headers == [("Content-Type", "multipart/mixed"), ("MIME-Version", "1.0"),
                               ("From", call.from), ("To", call.to), ("Subject", Subject)]
      && 0 < |call.mail.parts| && call.mail.parts[0] == PlainText(Body(report))
      && |call.mail.parts| == (if Truthy(url) then 2 else 1)
      && (Truthy(url) ==>
            fetch.Response? && !RaisesForStatus(fetch.status)
            && call.mail.parts[1] == OctetStream(fetch.content, Disposition(Basename(url.text))))
  {
    var sender, recipient := creds.sender.value, Lookup(report, "recipient_email").text;
    var plan := TrySteps(creds, report, fetch, smtp);
    var o := PlanShape(sender, creds.password.value, recipient, report, fetch, smtp);
    RunSpec(plan);
    var a := Run(plan);
    assert a.calls[k] == plan[k].call;
    assert k == o + 3;
    assert o == 1 ==> plan[0].result.Done?;
  }

  /** The plan: the download step first when there is an image URL, then the five SMTP steps. */
  lemma PlanShape(sender: string, password: string, recipient: string, report: Report,
                  fetch: FetchResult, smtp: Smtp) returns (o: nat)
    ensures var plan := Plan(sender, password, recipient, report, fetch, smtp);
      var url := Lookup(report, "image_url");
      o == (if Truthy(url) then 1 else 0) && |plan| == o + 5
      && (Truthy(url) ==> plan[0] == Step(HttpGet(url.text), FetchStep(fetch)))
      && plan[o] == Step(Connect(SmtpHost, SmtpPort), smtp.connect)
      && plan[o + 1] == Step(StartTls, smtp.starttls)
      && plan[o + 2] == Step(Login(sender, password), smtp.login)
      && plan[o + 3] == Step(SendMail(sender, recipient, Composed(sender, recipient, report, fetch)), smtp.sendmail)
      && plan[o + 4] == Step(Quit, smtp.quit)
      && (forall j :: 0 <= j < |plan| && j != o + 3 ==> !plan[j].call.SendMail?)
      && (forall j :: o <= j < |plan| ==> !plan[j].call.HttpGet?)
  {
    o := if Truthy(Lookup(report, "image_url")) then 1 else 0;
  }
}
