/**
 * The "Send Test Notification" operator: `poll` decides whether the button may run,
 * `execute` sends a fixed message with the scene's credentials on the calling thread
 * and reports the sender's text at INFO or ERROR level.
 */
module TestTrigger {
  import opened Options
  import opened Settings
  import opened Sender

  const TestMessage := "This is a test notification from the Blender Pushover Addon."
  const OfflineNotice := "Blender is running in offline mode"
  const Finished := "FINISHED"

  /** The answer of `poll`, and the notice it sets when it refuses. */
  datatype PollResult = PollResult(allowed: bool, notice: Option<string>)

  datatype ReportLevel = Info | Error

  /** One report shown to the user. */
  datatype Report = Report(level: ReportLevel, text: string)

  /** One run of `execute`: the sender's attempt, the report it makes, and the status set it returns. */
  datatype Execution = Execution(attempt: Attempt, report: Report, status: set<string>)

  /** `poll`: the action is available exactly when the host has online access. */
  function Poll(online: bool): (p: PollResult)
    ensures p.allowed <==> online
    ensures p.notice.Some? <==> !online
    ensures p.notice.Some? ==> p.notice.value == OfflineNotice
  {
    if online then PollResult(true, None) else PollResult(false, Some(OfflineNotice))
  }

  /** `execute`: one blocking send of the test message, reported at the level its success calls for. */
  function Execute(props: NotifierProperties, transport: Transport): (x: Execution)
    ensures x.attempt == Send(props.userKey, props.apiToken, TestMessage, transport)
    ensures x.report.level == Info <==> x.attempt.success
    ensures x.report.text == x.attempt.text
    ensures x.status == {Finished}
  {
    var attempt := Send(props.userKey, props.apiToken, TestMessage, transport);
    var level := if attempt.success then Info else Error;
    Execution(attempt, Report(level, attempt.text), {Finished})
  }

  /** A press of the button: the host runs `execute` only when `poll` allows it. */
  function Press(online: bool, props: NotifierProperties, transport: Transport): (r: Option<Execution>)
    ensures r.Some? <==> online
    ensures r.Some? ==> r.value == Execute(props, transport)
  {
    if Poll(online).allowed then Some(Execute(props, transport)) else None
  }

  /**
   * The report tells the user what happened: INFO exactly when the request was
   * delivered, and its text names the cause (missing credentials, delivery, or the
   * transport's own error description).
   */
  lemma ReportMatchesCause(props: NotifierProperties, transport: Transport)
    ensures var x := Execute(props, transport);
            (x.report.level == Info <==> props.userKey != [] && props.apiToken != [] && transport.Completed?)
            && Diagnose(x.report.level == Info, x.report.text) == Expected(props.userKey, props.apiToken, transport)
  {
    SendIsDiagnosable(props.userKey, props.apiToken, TestMessage, transport);
  }

  /** The test always posts the fixed test message, never the scene's template. */
  lemma TestSendsFixedMessage(props: NotifierProperties, transport: Transport)
    ensures var a := Execute(props, transport).attempt;
            a.posted.Some? ==> Lookup(a.posted.value.form, "message") == Some(TestMessage)
  {
  }

  /** Two scenes that differ only in their template and enable flag give the same test run. */
  lemma ExecuteIgnoresTemplate(p: NotifierProperties, q: NotifierProperties, transport: Transport)
    requires p.userKey == q.userKey && p.apiToken == q.apiToken
    ensures Execute(p, transport) == Execute(q, transport)
  {
  }
}
