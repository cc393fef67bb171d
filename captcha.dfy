/** The captcha gate: what the challenge widget last reported, and whether
    it has ever reported an expiry. */
module Captcha {
  import opened FormValues

  /** `text` is the last reported response (`None` for the widget's
      `null`); `expired` records that a `null` has been reported. */
  datatype CaptchaState = CaptchaState(text: Option<string>, expired: bool)

  /** The state before the widget reports anything: empty text, not expired. */
  const INITIAL := CaptchaState(Some(""), false)

  /** `!isEmpty(captchaText) && !isCaptchaExpired`: a non-empty response
      that has not expired. */
  predicate Accepted(c: CaptchaState)
  {
    c.text.Some? && c.text.value != "" && !c.expired
  }

  /** The widget's change callback: the report is stored as is, and a `null`
      report sets the expired flag, which nothing clears again. */
  function OnChange(c: CaptchaState, report: Option<string>): CaptchaState
  {
    CaptchaState(report, if report.None? then true else c.expired)
  }

  /** The state after the widget has made the given reports, in order. */
  function Run(c: CaptchaState, reports: seq<Option<string>>): CaptchaState
    decreases |reports|
  {
    if reports == [] then c
    else OnChange(Run(c, reports[..|reports| - 1]), reports[|reports| - 1])
  }

  /** After any run of reports the text is the last report, and the flag is
      set exactly when it was set before or some report was `null`. */
  lemma {:induction false} RunOutcome(c: CaptchaState, reports: seq<Option<string>>)
    ensures Run(c, reports).text == if reports == [] then c.text else reports[|reports| - 1]
    ensures Run(c, reports).expired <==> c.expired || None in reports
    decreases |reports|
  {
    if reports != [] {
      var init := reports[..|reports| - 1];
      RunOutcome(c, init);
      assert reports == init + [reports[|reports| - 1]];
    }
  }

  /** Once expired, no further report makes the captcha acceptable again. */
  lemma ExpiryIsPermanent(c: CaptchaState, reports: seq<Option<string>>)
    requires c.expired
    ensures Run(c, reports).expired && !Accepted(Run(c, reports))
  {
    RunOutcome(c, reports);
  }

  /** From the initial state, the captcha is acceptable exactly when the
      widget has reported something, never `null`, and its last report is
      non-empty. */
  lemma AcceptedAfterRun(reports: seq<Option<string>>)
    ensures Accepted(Run(INITIAL, reports)) <==>
      reports != [] && None !in reports && reports[|reports| - 1].value != ""
  {
    RunOutcome(INITIAL, reports);
  }
}
