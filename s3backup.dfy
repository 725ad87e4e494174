/** The batch driver (src/S3Backup/__init__.py): runs every configured plan in
    order, isolates each plan's failure, and reports each outcome by email.
    The mail transport and the clock are oracles collected in `Mailer`. */
module S3Backup {
  import opened Formatting
  import opened Plans

  const SubjectHead: string := "[S3-Backup] ["
  const SubjectMiddle: string := "] - Plan: "
  const BodyHead: string := "The backup plan, "
  const FailureHeader: string := "\n\nDetailed failure information:\n\n"

  /** The notification part of the loaded configuration; either address may be absent. */
  datatype MailSettings = MailSettings(emailFrom: Option<string>, emailTo: Option<string>)

  /** Which status call this is: the plan's 1-based counter, and 0 for the
      first call about that plan (from the `try` after a completed run, from
      the `except` after a failed one) or 1 for the failure call made after
      the success call raised. */
  datatype CallId = CallId(counter: nat, attempt: nat)

  /** The collaborators of the status email that the model cannot see into. */
  datatype Mailer = Mailer(
    connectError: CallId -> Option<string>,  // error raised while connecting to the mail service, if any
    sendError: CallId -> Option<string>,     // error raised while sending, if any
    clock: CallId -> string)                 // the UTC time stamp written into the body

  datatype Email = Email(sender: string, recipient: string, subject: string, body: string)

  /** What became of one status call. */
  datatype Delivery =
    | NotConfigured                               // an address is missing: nothing is attempted
    | SetupFailed(error: string)                  // connecting raised; the error leaves the call
    | Attempted(timestamp: string, sendError: Option<string>) // sending was tried at `timestamp`; any error stays inside

  /** One call of the status-email routine, with the arguments it was given. */
  datatype Notice = Notice(plan: string, success: bool, detail: Option<string>, delivery: Delivery)

  datatype Status = Status(notice: Notice, raised: Option<string>)

  /** Everything that happened for one plan of the batch. */
  datatype Report = Report(
    counter: nat, total: nat, plan: string, run: RunResult,
    notices: seq<Notice>, raised: Option<string>)

  datatype SubjectFields = SubjectFields(success: bool, plan: string)

  predicate Enabled(settings: MailSettings) {
    settings.emailFrom.Some? && settings.emailTo.Some?
  }

  /** No status call can raise: mail is off, or connecting never fails. */
  ghost predicate SetupNeverFails(settings: MailSettings, mailer: Mailer) {
    !Enabled(settings) || forall id :: mailer.connectError(id).None?
  }

  /** The result word of the subject and the body. */
  function Verdict(success: bool): (word: string)
    ensures word == "SUCCESS" || word == "FAILURE"
    ensures word == "SUCCESS" <==> success
    ensures |word| == 7
  {
    if success then "SUCCESS" else "FAILURE"
  }

  /** The subject line of a status email. */
  function Subject(plan: string, success: bool): string {
    SubjectHead + Verdict(success) + SubjectMiddle + plan
  }

  /** Reads the verdict and the plan name back from a subject line. */
  function ParseSubject(s: string): Option<SubjectFields> {
    if |s| >= 30 && s[..13] == SubjectHead && s[20..30] == SubjectMiddle &&
       (s[13..20] == "SUCCESS" || s[13..20] == "FAILURE")
    then Some(SubjectFields(s[13..20] == "SUCCESS", s[30..]))
    else None
  }

  /** The verdict and the plan name can be read back from the subject. */
  lemma SubjectRoundTrip(plan: string, success: bool)
    ensures ParseSubject(Subject(plan, success)) == Some(SubjectFields(success, plan))
  {
  }

  /** Every subject that parses is the subject of what it parses to, so
      subjects and (verdict, plan) pairs correspond one to one. */
  lemma ParsedSubjectIsSubject(s: string)
    requires ParseSubject(s).Some?
    ensures Subject(ParseSubject(s).value.plan, ParseSubject(s).value.success) == s
  {
  }

  /** The first sentence of the body. */
  function Summary(plan: string, timestamp: string, success: bool): string {
    BodyHead + plan + ", run at " + timestamp + " was " + Verdict(success)
  }

  /** The summary names the plan first and ends with SUCCESS exactly for a success. */
  lemma SummaryLayout(plan: string, timestamp: string, success: bool)
    ensures var line := Summary(plan, timestamp, success);
      |BodyHead| + |plan| <= |line| && line[..|BodyHead| + |plan|] == BodyHead + plan &&
      (line[|line| - 7..] == "SUCCESS" <==> success)
  {
  }

  /** The body: the summary, then the failure section when a detail is given. */
  function Body(plan: string, timestamp: string, success: bool, detail: Option<string>): string {
    var line := Summary(plan, timestamp, success);
    if detail.Some? then line + FailureHeader + detail.value else line
  }

  /** The body starts with the summary and goes on exactly when a detail is
      given, with the failure header followed by that detail. */
  lemma BodyLayout(plan: string, timestamp: string, success: bool, detail: Option<string>)
    ensures var line, body := Summary(plan, timestamp, success), Body(plan, timestamp, success, detail);
      |line| <= |body| && body[..|line|] == line &&
      (detail.None? <==> |body| == |line|) &&
      (detail.Some? ==> body[|line|..] == FailureHeader + detail.value)
  {
  }

  /** The email a status call sends: from and to the configured addresses,
      with the subject and body built from what the notice records. */
  function Message(settings: MailSettings, n: Notice): Email
    requires Enabled(settings) && n.delivery.Attempted?
  {
    Email(settings.emailFrom.value, settings.emailTo.value,
          Subject(n.plan, n.success), Body(n.plan, n.delivery.timestamp, n.success, n.detail))
  }

  /** What a reader of the status email learns: the verdict and the plan
      name from the subject, the plan and the run time from the first
      sentence of the body, and the failure detail from the rest of it. */
  lemma MessageLayout(settings: MailSettings, n: Notice)
    requires Enabled(settings) && n.delivery.Attempted?
    ensures var e, line := Message(settings, n), Summary(n.plan, n.delivery.timestamp, n.success);
      e.sender == settings.emailFrom.value && e.recipient == settings.emailTo.value &&
      ParseSubject(e.subject) == Some(SubjectFields(n.success, n.plan)) &&
      |line| <= |e.body| && e.body[..|line|] == line &&
      (n.detail.None? <==> |e.body| == |line|) &&
      (n.detail.Some? ==> e.body[|line|..] == FailureHeader + n.detail.value)
  {
    SubjectRoundTrip(n.plan, n.success);
    BodyLayout(n.plan, n.delivery.timestamp, n.success, n.detail);
  }

  /** One status call: skipped when an address is missing; otherwise a
      connection error escapes the call, while a send error is swallowed. */
  function StatusEmail(settings: MailSettings, mailer: Mailer, id: CallId,
                       plan: string, success: bool, detail: Option<string>): (r: Status)
    ensures r.notice.plan == plan && r.notice.success == success && r.notice.detail == detail
    ensures !Enabled(settings) ==> r.notice.delivery == NotConfigured && r.raised.None?
    ensures r.raised.Some? <==> Enabled(settings) && mailer.connectError(id).Some?
    ensures r.raised.Some? ==> r.raised == mailer.connectError(id) && r.notice.delivery == SetupFailed(r.raised.value)
    ensures r.raised.None? && Enabled(settings) ==>
      r.notice.delivery == Attempted(mailer.clock(id), mailer.sendError(id))
  {
    if !Enabled(settings) then Status(Notice(plan, success, detail, NotConfigured), None)
    else match mailer.connectError(id)
      case Some(e) => Status(Notice(plan, success, detail, SetupFailed(e)), Some(e))
      case None => Status(Notice(plan, success, detail, Attempted(mailer.clock(id), mailer.sendError(id))), None)
  }

  /** One pass of the batch loop for the plan named `plan`, whose run gave `run`: report success from
      inside the `try`, or report the exception from the `except` branch.
      A status call that raises inside the `try` leads to a second, failure
      report; one that raises inside the `except` leaves the batch. */
  function Attempt(plan: string, run: RunResult, counter: nat, total: nat,
                   settings: MailSettings, mailer: Mailer): Report
  {
    match run.outcome
    case Completed =>
      var first := StatusEmail(settings, mailer, CallId(counter, 0), plan, true, None);
      if first.raised.None? then
        Report(counter, total, plan, run, [first.notice], None)
      else
        var second := StatusEmail(settings, mailer, CallId(counter, 1), plan, false, first.raised);
        Report(counter, total, plan, run, [first.notice, second.notice], second.raised)
    case Failed(detail) =>
      var first := StatusEmail(settings, mailer, CallId(counter, 0), plan, false, Some(detail));
      Report(counter, total, plan, run, [first.notice], first.raised)
  }

  /** What a pass reports: counter k of N, the plan and its run, and one or
      two status calls about that plan. The first call's verdict is the run's;
      a second, failure call carrying the connect error follows exactly when
      the success call raised; and an error escapes exactly when the last
      call failed to connect, and it is that call's connect error. */
  lemma AttemptShape(plan: string, run: RunResult, counter: nat, total: nat,
                     settings: MailSettings, mailer: Mailer)
    ensures var r := Attempt(plan, run, counter, total, settings, mailer);
      (r.counter == counter && r.total == total && r.plan == plan && r.run == run) &&
      (1 <= |r.notices| <= 2) &&
      (forall k :: 0 <= k < |r.notices| ==> r.notices[k].plan == plan) &&
      (r.notices[0].success <==> r.run.outcome.Completed?) &&
      (r.notices[0].detail == (if r.run.outcome.Failed? then Some(r.run.outcome.detail) else None)) &&
      (|r.notices| == 2 <==> r.run.outcome.Completed? && r.notices[0].delivery.SetupFailed?) &&
      (|r.notices| == 2 ==> !r.notices[1].success && r.notices[1].detail == Some(r.notices[0].delivery.error)) &&
      (r.raised.Some? ==> r.notices[|r.notices| - 1].delivery == SetupFailed(r.raised.value)) &&
      (r.raised.Some? <==> r.notices[|r.notices| - 1].delivery.SetupFailed?)
  {
  }

  /** With mail setup that never fails, a pass makes one status call, about
      its own plan, and nothing escapes. */
  lemma ReliableAttempt(plan: string, run: RunResult, counter: nat, total: nat,
                        settings: MailSettings, mailer: Mailer)
    requires SetupNeverFails(settings, mailer)
    ensures var r := Attempt(plan, run, counter, total, settings, mailer);
      r.plan == plan && |r.notices| == 1 && r.raised.None?
  {
  }

  datatype Batch = Batch(reports: seq<Report>, raised: Option<string>)

  /** What each plan's `run` does against the host, in list order. */
  function Runs(plans: seq<Plan>, host: Host): (r: seq<RunResult>)
    ensures |r| == |plans|
  {
    if plans == [] then [] else [plans[0].Pipeline(host)] + Runs(plans[1..], host)
  }

  /** The run listed for plan j is what that plan's `run` does. */
  lemma {:induction false} RunOfPlan(plans: seq<Plan>, host: Host, j: nat)
    requires j < |plans|
    ensures Runs(plans, host)[j] == plans[j].Pipeline(host)
  {
    if j > 0 {
      RunOfPlan(plans[1..], host, j - 1);
    }
  }

  /** The pass each plan from index `from` on would make if the loop reached
      it, given what each plan's run gave: plan j is reported as number j + 1 of N. */
  function Attempts(plans: seq<Plan>, runs: seq<RunResult>, from: nat, settings: MailSettings, mailer: Mailer): (r: seq<Report>)
    requires |runs| == |plans| && from <= |plans|
    ensures |r| == |plans| - from
    decreases |plans| - from
  {
    if from == |plans| then []
    else
      [Attempt(plans[from].name, runs[from], from + 1, |plans|, settings, mailer)] +
      Attempts(plans, runs, from + 1, settings, mailer)
  }

  /** The pass listed for plan j is that plan's run, reported as number j + 1 of N. */
  lemma {:induction false} AttemptOfPlan(plans: seq<Plan>, runs: seq<RunResult>, from: nat, settings: MailSettings, mailer: Mailer, j: nat)
    requires |runs| == |plans| && from <= j < |plans|
    ensures Attempts(plans, runs, from, settings, mailer)[j - from] ==
      Attempt(plans[j].name, runs[j], j + 1, |plans|, settings, mailer)
    decreases j - from
  {
    if from < j {
      AttemptOfPlan(plans, runs, from + 1, settings, mailer, j);
    }
  }

  /** The batch loop from index `from` on, given each plan's pass: the passes
      are taken in turn until one lets an exception escape. */
  function RunFrom(attempts: seq<Report>, from: nat): Batch
    requires from <= |attempts|
    decreases |attempts| - from
  {
    if from == |attempts| then Batch([], None)
    else if attempts[from].raised.Some? then Batch([attempts[from]], attempts[from].raised)
    else
      var rest := RunFrom(attempts, from + 1);
      Batch([attempts[from]] + rest.reports, rest.raised)
  }

  /** What a batch over attempts[from..] looks like: its reports are the
      passes from `from` on, in order; every report but the last let the loop
      go on; the batch's error is the last report's; and the batch ends short
      of the last plan only because an error escaped. */
  ghost predicate InOrder(attempts: seq<Report>, from: nat, b: Batch)
    requires from <= |attempts|
  {
    |b.reports| <= |attempts| - from &&
    (forall k :: 0 <= k < |b.reports| ==> b.reports[k] == attempts[from + k]) &&
    (forall k :: 0 <= k < |b.reports| - 1 ==> b.reports[k].raised.None?) &&
    b.raised == (if b.reports == [] then None else b.reports[|b.reports| - 1].raised) &&
    (|b.reports| < |attempts| - from ==> b.raised.Some?)
  }

  /** RunFrom fits that description. */
  lemma {:induction false} RunFromInOrder(attempts: seq<Report>, from: nat)
    requires from <= |attempts|
    ensures InOrder(attempts, from, RunFrom(attempts, from))
    decreases |attempts| - from
  {
    if from < |attempts| && attempts[from].raised.None? {
      RunFromInOrder(attempts, from + 1);
      var rest := RunFrom(attempts, from + 1);
      var reports := RunFrom(attempts, from).reports;
      assert reports == [attempts[from]] + rest.reports;
      forall k | 0 <= k < |reports| ensures reports[k] == attempts[from + k] {
        if k > 0 {
          assert reports[k] == rest.reports[k - 1];
        }
      }
    }
  }

  /** The description InOrder fits one batch only: the one RunFrom builds. */
  lemma {:induction false} InOrderDeterminesBatch(attempts: seq<Report>, from: nat, b: Batch)
    requires from <= |attempts|
    requires InOrder(attempts, from, b)
    ensures b == RunFrom(attempts, from)
    decreases |attempts| - from
  {
    if from < |attempts| {
      assert b.reports[0] == attempts[from];
      if attempts[from].raised.Some? {
        assert b.reports == [attempts[from]];
      } else {
        var tail := Batch(b.reports[1..], b.raised);
        forall k | 0 <= k < |tail.reports| ensures tail.reports[k] == attempts[from + 1 + k] {
          assert tail.reports[k] == b.reports[k + 1];
        }
        forall k | 0 <= k < |tail.reports| - 1 ensures tail.reports[k].raised.None? {
          assert tail.reports[k] == b.reports[k + 1];
        }
        InOrderDeterminesBatch(attempts, from + 1, tail);
        assert b.reports == [attempts[from]] + tail.reports;
      }
    }
  }

  /** When no pass lets an error escape, the batch holds every pass from
      `from` on and raises nothing. */
  lemma {:induction false} RunFromIsolatesFailures(attempts: seq<Report>, from: nat)
    requires from <= |attempts|
    requires forall j :: from <= j < |attempts| ==> attempts[j].raised.None?
    ensures RunFrom(attempts, from) == Batch(attempts[from..], None)
    decreases |attempts| - from
  {
    if from < |attempts| {
      RunFromIsolatesFailures(attempts, from + 1);
      assert attempts[from..] == [attempts[from]] + attempts[from + 1..];
    }
  }

  /** The batch over a plan list, whatever each plan's run gave (the loop
      uses `Runs`): the plans are taken once each, in list order,
      numbered 1..N; an empty list gives nothing; the loop goes on after any
      plan's failure and stops early only when a status call raises from the
      `except` branch, which is then what escapes. */
  lemma BatchOfPlans(plans: seq<Plan>, runs: seq<RunResult>, settings: MailSettings, mailer: Mailer)
    requires |runs| == |plans|
    ensures var b := RunFrom(Attempts(plans, runs, 0, settings, mailer), 0);
      (plans == [] ==> b == Batch([], None)) &&
      |b.reports| <= |plans| &&
      (forall k :: 0 <= k < |b.reports| ==>
        b.reports[k] == Attempt(plans[k].name, runs[k], k + 1, |plans|, settings, mailer)) &&
      (forall k :: 0 <= k < |b.reports| - 1 ==> b.reports[k].raised.None?) &&
      b.raised == (if b.reports == [] then None else b.reports[|b.reports| - 1].raised) &&
      (|b.reports| < |plans| ==> b.raised.Some?)
  {
    var attempts := Attempts(plans, runs, 0, settings, mailer);
    var b := RunFrom(attempts, 0);
    RunFromInOrder(attempts, 0);
    forall k | 0 <= k < |b.reports|
      ensures b.reports[k] == Attempt(plans[k].name, runs[k], k + 1, |plans|, settings, mailer)
    {
      assert b.reports[k] == attempts[k];
      AttemptOfPlan(plans, runs, 0, settings, mailer, k);
    }
  }

  /** When no status call can raise, a plan's failure never stops the batch:
      every plan is run and reported exactly once, and nothing escapes. */
  lemma ReliableMailRunsEveryPlan(plans: seq<Plan>, runs: seq<RunResult>, settings: MailSettings, mailer: Mailer)
    requires |runs| == |plans|
    requires SetupNeverFails(settings, mailer)
    ensures var b := RunFrom(Attempts(plans, runs, 0, settings, mailer), 0);
      |b.reports| == |plans| && b.raised.None? &&
      forall k :: 0 <= k < |b.reports| ==> b.reports[k].plan == plans[k].name && |b.reports[k].notices| == 1
  {
    var attempts := Attempts(plans, runs, 0, settings, mailer);
    forall j | 0 <= j < |attempts|
      ensures attempts[j].raised.None? && attempts[j].plan == plans[j].name && |attempts[j].notices| == 1
    {
      AttemptOfPlan(plans, runs, 0, settings, mailer, j);
      ReliableAttempt(plans[j].name, runs[j], j + 1, |plans|, settings, mailer);
    }
    RunFromIsolatesFailures(attempts, 0);
    assert attempts[0..] == attempts;
  }

  class S3BackupTool {
    /** The loaded configuration: the plans in order, and the mail settings. */
    const plans: seq<Plan>
    const settings: MailSettings

    constructor (plans: seq<Plan>, settings: MailSettings)
      ensures this.plans == plans && this.settings == settings
    {
      this.plans := plans;
      this.settings := settings;
    }

    /** The status-email routine: returns what became of the call and, when
        sending was tried, the email that was handed to the mail service. */
    method SendStatusEmail(mailer: Mailer, id: CallId, plan: Plan, success: bool, detail: Option<string>)
      returns (r: Status, sent: Option<Email>)
      ensures r == StatusEmail(settings, mailer, id, plan.name, success, detail)
      ensures sent.Some? <==> r.notice.delivery.Attempted?
      ensures sent.Some? ==> Enabled(settings) && sent.value == Message(settings, r.notice)
    {
      var notice := Notice(plan.name, success, detail, NotConfigured);
      if settings.emailFrom.None? || settings.emailTo.None? {
        return Status(notice, None), None;
      }
      var connectError := mailer.connectError(id);
      if connectError.Some? {
        return Status(notice.(delivery := SetupFailed(connectError.value)), connectError), None;
      }
      var timestamp := mailer.clock(id);
      var body := Body(plan.name, timestamp, success, detail);
      sent := Some(Email(settings.emailFrom.value, settings.emailTo.value, Subject(plan.name, success), body));
      // A send error is caught and only logged.
      var sendError := mailer.sendError(id);
      r := Status(notice.(delivery := Attempted(timestamp, sendError)), None);
    }

    /** The body of the batch loop for one plan: run it inside `try`,
        report success there, or report the exception from `except`. */
    method RunOne(plan: Plan, counter: nat, host: Host, mailer: Mailer) returns (r: Report)
      ensures r == Attempt(plan.name, plan.Pipeline(host), counter, |plans|, settings, mailer)
    {
      var run := plan.Run(host);
      if run.outcome.Completed? {
        var first, _ := SendStatusEmail(mailer, CallId(counter, 0), plan, true, None);
        if first.raised.None? {
          return Report(counter, |plans|, plan.name, run, [first.notice], None);
        }
        // The `except` branch catches the error of the success report.
        var second, _ := SendStatusEmail(mailer, CallId(counter, 1), plan, false, first.raised);
        r := Report(counter, |plans|, plan.name, run, [first.notice, second.notice], second.raised);
      } else {
        var first, _ := SendStatusEmail(mailer, CallId(counter, 0), plan, false, Some(run.outcome.detail));
        r := Report(counter, |plans|, plan.name, run, [first.notice], first.raised);
      }
    }

    /** Runs every plan once, in list order, numbering them 1..N; a plan's
        failure never stops the batch, which ends early only when a status
        call raises from inside the `except` branch. */
    method RunPlans(host: Host, mailer: Mailer) returns (reports: seq<Report>, raised: Option<string>)
      ensures Batch(reports, raised) == RunFrom(Attempts(plans, Runs(plans, host), 0, settings, mailer), 0)
    {
      reports, raised := [], None;
      if |plans| == 0 {
        // Logged as a warning: there are no plans to execute.
        return;
      }
      ghost var runs := Runs(plans, host);
      ghost var attempts := Attempts(plans, runs, 0, settings, mailer);
      var counter := 1;
      for i := 0 to |plans|
        invariant counter == i + 1 && raised.None?
        invariant var rest := RunFrom(attempts, i); RunFrom(attempts, 0) == Batch(reports + rest.reports, rest.raised)
      {
        var report := RunOne(plans[i], counter, host, mailer);
        RunOfPlan(plans, host, i);
        AttemptOfPlan(plans, runs, 0, settings, mailer, i);
        reports := reports + [report];
        if report.raised.Some? {
          // Raised from inside the `except` branch: it leaves the loop.
          raised := report.raised;
          break;
        }
        counter := counter + 1;
      }
    }
  }
}
