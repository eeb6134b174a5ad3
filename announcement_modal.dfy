/** The "Send Announcement" dialog (src/components/modals/AnnouncementModal.tsx):
    the advisory texts for an AQI, the recipient list, the air-quality report
    and the sequence of requests `sendAlert` makes, which stops at the first
    one that fails. */
module AnnouncementModal {
  import opened Wrappers
  import opened Seqs
  import opened Strings
  import opened Bands
  import opened Readings
  import AuthContext
  import TimelineStepper

  /** What `getAirQualityStatus` returns. */
  datatype AirStatus = AirStatus(message: string, subject: string, risk: string, condition: string)

  const StatusBounds: seq<int> := [10, 40, 90, 200, 280]

  const Optimal := AirStatus(
    "Alert: Air quality is optimal, no health concerns. Outdoor activities can continue as usual.",
    "Air Quality: Optimal", "Minimal Risk",
    "Conditions are stable and low-risk, requiring minimal attention.")
  const Acceptable := AirStatus(
    "Advisory: Air quality is acceptable. Minor precautions may be needed for sensitive individuals.",
    "Air Quality: Acceptable", "Mild Risk", "Mild")
  const ModerateStatus := AirStatus(
    "Warning: Air quality is moderate. Sensitive individuals may experience mild symptoms",
    "Air Quality: Moderate", "Moderate Risk", "Raised")
  const HighStatus := AirStatus(
    "Warning: Air quality is high. People with respiratory or heart conditions should go far from areas with poor air quality to reduce exposure.",
    "Air Quality: High - Health Alert", "Unhealthy for Sensitive Groups", "Serious")
  const VeryHighStatus := AirStatus(
    "Advisory: Air quality is very high. Everyone should avoid outdoor activities and move far from areas with poor air quality. Vulnerable individuals should prioritize safety and avoid exposure.",
    "Air Quality: Very High - Urgent", "Very High Risk", "Severe")
  const EmergencyStatus := AirStatus(
    "Emergency: Air quality is critically hazardous. It is strongly advised that everyone go far from affected areas and take necessary precautions.",
    "Air Quality: Emergency - Critical", "Extremely High", "Hazardous")

  const AirStatuses: seq<AirStatus> := [Optimal, Acceptable, ModerateStatus, HighStatus, VeryHighStatus, EmergencyStatus]

  /** `getAirQualityStatus`, as the chain of inclusive bounds it is written as. */
  function AirQualityStatus(aqi: int): (s: AirStatus)
    ensures s in AirStatuses
  {
    if aqi <= 10 then Optimal
    else if aqi <= 40 then Acceptable
    else if aqi <= 90 then ModerateStatus
    else if aqi <= 200 then HighStatus
    else if aqi <= 280 then VeryHighStatus
    else EmergencyStatus
  }

  /** The status is the one of the band the AQI falls in, bands being bounded
      above by 10, 40, 90, 200 and 280 inclusive. */
  lemma AirQualityStatusIsBand(aqi: int)
    ensures AirQualityStatus(aqi) == AirStatuses[BandOf(StatusBounds, aqi)]
  {
    var b := if aqi <= 10 then 0 else if aqi <= 40 then 1 else if aqi <= 90 then 2
      else if aqi <= 200 then 3 else if aqi <= 280 then 4 else 5;
    BandOfInterval(StatusBounds, aqi, b);
  }

  /** Between 21 and 280 the risk an announcement reports is the one the
      history timeline later shows for the same AQI; the two tables part at
      and below 20 (the first band ends at 10 here) and above 280 (here
      "Extremely High", there "Hazardous"). */
  lemma RiskAgreesWithTimeline(aqi: int)
    ensures aqi <= 10 ==> AirQualityStatus(aqi).risk == "Minimal Risk" && TimelineStepper.RiskLevel(aqi) == "Low Risk"
    ensures 20 < aqi <= 280 ==> AirQualityStatus(aqi).risk == TimelineStepper.RiskLevel(aqi)
    ensures 10 < aqi <= 20 ==> AirQualityStatus(aqi).risk == "Mild Risk" && TimelineStepper.RiskLevel(aqi) == "Low Risk"
    ensures 280 < aqi ==> AirQualityStatus(aqi).risk == "Extremely High" && TimelineStepper.RiskLevel(aqi) == "Hazardous"
  {
  }

  // ---------------------------------------------------------------------
  // Recipients

  /** `item.email?.trim()` as the filter's test: an address is present and
      not blank. */
  predicate HasEmail(e: Option<string>) {
    e.Some? && Trim(e.value) != ""
  }

  /** `item.email || ''`. */
  function EmailOf(e: Option<string>): string {
    if e.Some? then e.value else ""
  }

  /** `map((item) => item.email || '')`. */
  function EmailsOf(entries: seq<Option<string>>): (r: seq<string>)
    ensures |r| == |entries|
    ensures forall k :: 0 <= k < |r| ==> r[k] == EmailOf(entries[k])
    decreases |entries|
  {
    if |entries| == 0 then [] else [EmailOf(entries[0])] + EmailsOf(entries[1..])
  }

  lemma EmailsOfAppend(a: seq<Option<string>>, b: seq<Option<string>>)
    ensures EmailsOf(a + b) == EmailsOf(a) + EmailsOf(b)
  {
    var l := EmailsOf(a + b);
    var r := EmailsOf(a) + EmailsOf(b);
    forall k | 0 <= k < |l| ensures l[k] == r[k] {
      if k >= |a| {
        assert (a + b)[k] == b[k - |a|];
      }
    }
  }

  /** The addresses `fetchEmails` keeps: those present and not blank after
      trimming, themselves untrimmed, in order. */
  function KeptEmails(entries: seq<Option<string>>): (r: seq<string>)
    ensures |r| <= |entries|
    ensures forall k :: 0 <= k < |r| ==> Trim(r[k]) != "" && Some(r[k]) in entries
    ensures forall k :: 0 <= k < |entries| && entries[k].Some? && Trim(entries[k].value) != "" ==> entries[k].value in r
  {
    var kept := Filter(entries, HasEmail);
    var r := EmailsOf(kept);
    assert forall k :: 0 <= k < |r| ==> kept[k] == Some(r[k]);
    assert forall k :: 0 <= k < |entries| && HasEmail(entries[k]) ==> entries[k].value in r by {
      forall k | 0 <= k < |entries| && HasEmail(entries[k]) ensures entries[k].value in r {
        var j :| 0 <= j < |kept| && kept[j] == entries[k];
        assert r[j] == entries[k].value;
      }
    }
    r
  }

  /** The addresses are kept in the order of the address list: the list's
      halves give the two halves of the result, and a single entry gives its
      own address exactly when it passes the filter. */
  lemma KeptEmailsAppend(a: seq<Option<string>>, b: seq<Option<string>>)
    ensures KeptEmails(a + b) == KeptEmails(a) + KeptEmails(b)
  {
    FilterAppend(a, b, HasEmail);
    EmailsOfAppend(Filter(a, HasEmail), Filter(b, HasEmail));
  }

  lemma KeptEmailsOne(e: Option<string>)
    ensures KeptEmails([e]) == if HasEmail(e) then [e.value] else []
  {
    assert Filter([e], HasEmail) == Filter([], HasEmail) + (if HasEmail(e) then [e] else []) by {
      FilterAppend([], [e], HasEmail);
    }
  }

  /** The "To" field: the kept addresses joined by commas. */
  function Recipients(entries: seq<Option<string>>): (r: string)
    ensures r == "" <==> KeptEmails(entries) == []
  {
    var kept := KeptEmails(entries);
    assert kept != [] ==> Trim(kept[0]) != "";
    JoinStartsWithFirst(kept, ',');
    Join(kept, ',')
  }

  /** Splitting the "To" field at its commas gives the kept addresses back,
      as long as there is one and none contains a comma; with none the field
      is empty. */
  lemma RecipientsRoundTrip(entries: seq<Option<string>>)
    ensures KeptEmails(entries) == [] ==> Recipients(entries) == ""
    ensures KeptEmails(entries) != [] && (forall k :: 0 <= k < |entries| && entries[k].Some? ==> ',' !in entries[k].value)
      ==> Split(Recipients(entries), ',') == KeptEmails(entries)
  {
    var kept := KeptEmails(entries);
    if kept != [] && (forall k :: 0 <= k < |entries| && entries[k].Some? ==> ',' !in entries[k].value) {
      forall k | 0 <= k < |kept| ensures ',' !in kept[k] {
        var j :| 0 <= j < |entries| && entries[j] == Some(kept[k]);
      }
      SplitJoin(kept, ',');
    }
  }

  // ---------------------------------------------------------------------
  // The air-quality report

  /** The lines of the report shown under the message. */
  function ReportLines(r: Reading, time: string, date: string, status: AirStatus): (lines: seq<string>)
    ensures |lines| == 9
  {
    ["AQI: " + IntToString(r.aqi), "PM 2.5: " + IntToString(r.pm2_5), "PM 10: " + IntToString(r.pm10),
     "CO: " + IntToString(r.co), "NO2: " + IntToString(r.no2), "Timestamp: " + time, "Date: " + date,
     "Risk: " + status.risk, "Condition: " + status.condition]
  }

  /** The report, one field per line. */
  function Report(r: Reading, time: string, date: string, status: AirStatus): string {
    Join(ReportLines(r, time, date, status), '\n')
  }

  lemma IntHasNoNewline(i: int)
    ensures '\n' !in IntToString(i)
  {
    var s := IntToString(i);
    forall k | 0 <= k < |s| ensures s[k] != '\n' {
      if i < 0 && k > 0 { assert s[k] == s[1..][k - 1]; }
    }
  }

  /** The report splits back into its nine lines when none of the texts in
      it holds a line break, so each reading can be read off its own line. */
  lemma ReportSplitsIntoLines(r: Reading, time: string, date: string, status: AirStatus)
    requires '\n' !in time && '\n' !in date
    requires '\n' !in status.risk && '\n' !in status.condition
    ensures Split(Report(r, time, date, status), '\n') == ReportLines(r, time, date, status)
  {
    var lines := ReportLines(r, time, date, status);
    forall k | 0 <= k < 9 ensures '\n' !in lines[k] {
      var tag := ["AQI: ", "PM 2.5: ", "PM 10: ", "CO: ", "NO2: ", "Timestamp: ", "Date: ", "Risk: ", "Condition: "][k];
      assert '\n' !in tag;
      var value := if k == 0 then IntToString(r.aqi) else if k == 1 then IntToString(r.pm2_5)
                   else if k == 2 then IntToString(r.pm10) else if k == 3 then IntToString(r.co)
                   else if k == 4 then IntToString(r.no2) else if k == 5 then time else if k == 6 then date
                   else if k == 7 then status.risk else status.condition;
      if k < 5 {
        IntHasNoNewline([r.aqi, r.pm2_5, r.pm10, r.co, r.no2][k]);
      }
      assert lines[k] == tag + value;
    }
    SplitJoin(lines, '\n');
  }

  const FailedReport := "Failed to load air quality data"

  // ---------------------------------------------------------------------
  // Sending

  /** The values of `formatDate`, `formatTime`, `chatFormatTime` and
      `chatFormatDate` at the time of a call; see DateFormat for the last. */
  datatype Clock = Clock(isoDate: string, time: string, chatTime: string, chatDate: string)

  datatype Request =
    | SendEmail(to: string, subject: string, message: string)
    | SaveHistory(date: string, timestamp: string, reading: Option<Reading>, scannedBy: Option<string>,
                  scannedUsingModel: string, message: string)
    | PostChat(message: string, sender: Option<string>, role: Option<string>, timestamp: string, date: string)
    | GetNotifs
    | SendPush(tokens: seq<string>, title: string, body: string, sound: string)

  /** A request and whether it succeeded. */
  datatype Call = Call(request: Request, ok: bool)

  predicate CallOk(c: Call) { c.ok }

  function Username(user: Option<AuthContext.SessionUser>): Option<string> {
    if user.Some? then Some(user.value.username) else None
  }

  function Role(user: Option<AuthContext.SessionUser>): Option<string> {
    if user.Some? then user.value.role else None
  }

  /** The message and report, as the email, the chat and the push carry them. */
  function AlertBody(messageAlert: string, airQuality: string): (b: string)
    ensures |b| == |messageAlert| + 1 + |airQuality|
    ensures b[..|messageAlert|] == messageAlert && b[|messageAlert|] == '\n' && b[|messageAlert| + 1..] == airQuality
  {
    messageAlert + "\n" + airQuality
  }

  /** The five requests `sendAlert` would make if each succeeded, paired with
      whether each does; the push goes to the tokens the notification query
      returned. */
  function AlertCalls(toEmail: string, subject: string, messageAlert: string, airQuality: string,
                      sendAQ: Option<Reading>, user: Option<AuthContext.SessionUser>, clock: Clock,
                      emailOk: bool, historyOk: bool, chatOk: bool, notifs: Outcome<seq<string>>, pushOk: bool): (calls: seq<Call>)
    ensures |calls| == 5
    ensures calls[0].request.SendEmail? && calls[1].request.SaveHistory? && calls[2].request.PostChat?
    ensures calls[3].request.GetNotifs? && calls[4].request.SendPush?
    ensures calls[0].ok == emailOk && calls[1].ok == historyOk && calls[2].ok == chatOk
    ensures calls[3].ok == notifs.Ok? && calls[4].ok == pushOk
  {
    var body := AlertBody(messageAlert, airQuality);
    var tokens := if notifs.Ok? then notifs.value else [];
    [Call(SendEmail(toEmail, subject, body), emailOk),
     Call(SaveHistory(clock.isoDate, clock.time, sendAQ, Username(user), "modelx21", messageAlert), historyOk),
     Call(PostChat(body, Username(user), Role(user), clock.chatTime, clock.chatDate), chatOk),
     Call(GetNotifs, notifs.Ok?),
     Call(SendPush(tokens, "Air Guard Chat", "Admin: " + body, "default"), pushOk)]
  }

  /** What each request of the plan carries: the email and the chat message
      hold the message with the report on the lines after it, the history
      entry holds the reading, the scanner's name, the model and the bare
      message, and the push goes to the returned tokens with the same text
      behind "Admin: ". */
  lemma AlertRequests(toEmail: string, subject: string, messageAlert: string, airQuality: string,
                      sendAQ: Option<Reading>, user: Option<AuthContext.SessionUser>, clock: Clock,
                      emailOk: bool, historyOk: bool, chatOk: bool, notifs: Outcome<seq<string>>, pushOk: bool)
    ensures var calls := AlertCalls(toEmail, subject, messageAlert, airQuality, sendAQ, user, clock,
                                    emailOk, historyOk, chatOk, notifs, pushOk);
      && calls[0].request == SendEmail(toEmail, subject, messageAlert + "\n" + airQuality)
      && calls[1].request == SaveHistory(clock.isoDate, clock.time, sendAQ, Username(user), "modelx21", messageAlert)
      && calls[2].request == PostChat(messageAlert + "\n" + airQuality, Username(user), Role(user),
                                      clock.chatTime, clock.chatDate)
      && calls[3].request == GetNotifs
      && calls[4].request == SendPush(if notifs.Ok? then notifs.value else [], "Air Guard Chat",
                                      "Admin: " + messageAlert + "\n" + airQuality, "default")
  {
    assert "Admin: " + (messageAlert + "\n" + airQuality) == "Admin: " + messageAlert + "\n" + airQuality;
  }

  /** The requests made are the plan up to and including the first failure:
      nothing is recorded in the history unless the email went out, nothing
      is posted to the chat unless the history was saved, and the push is
      sent only after all of them. */
  lemma AttemptedCalls(calls: seq<Call>)
    requires |calls| == 5
    ensures var n := if !calls[0].ok then 1 else if !calls[1].ok then 2 else if !calls[2].ok then 3
                     else if !calls[3].ok then 4 else 5;
      ThroughFirstFailure(calls, CallOk) == calls[..n]
    ensures AllOk(calls, CallOk) <==> calls[0].ok && calls[1].ok && calls[2].ok && calls[3].ok && calls[4].ok
  {
    if !calls[0].ok {
      ThroughFirstFailurePrefix(calls, CallOk, 1);
    } else if !calls[1].ok {
      ThroughFirstFailurePrefix(calls, CallOk, 2);
    } else if !calls[2].ok {
      ThroughFirstFailurePrefix(calls, CallOk, 3);
    } else if !calls[3].ok {
      ThroughFirstFailurePrefix(calls, CallOk, 4);
    } else {
      ThroughFirstFailurePrefix(calls, CallOk, 5);
    }
  }

  /** The awaited steps of the `try` block of `sendAlert`, each made only
      after the one before it succeeded. Returns the requests made and
      whether the block ran to its end. */
  method RunAlertSteps(toEmail: string, subject: string, messageAlert: string, airQuality: string,
                       sendAQ: Option<Reading>, user: Option<AuthContext.SessionUser>, clock: Clock,
                       emailOk: bool, historyOk: bool, chatOk: bool, notifs: Outcome<seq<string>>, pushOk: bool)
    returns (sent: seq<Call>, ok: bool)
    ensures var plan := AlertCalls(toEmail, subject, messageAlert, airQuality, sendAQ, user, clock,
                                   emailOk, historyOk, chatOk, notifs, pushOk);
      sent == ThroughFirstFailure(plan, CallOk) && (ok <==> AllOk(plan, CallOk))
  {
    var plan := AlertCalls(toEmail, subject, messageAlert, airQuality, sendAQ, user, clock,
                           emailOk, historyOk, chatOk, notifs, pushOk);
    AttemptedCalls(plan);
    sent := [plan[0]];
    if emailOk {
      sent := sent + [plan[1]];
      if historyOk {
        sent := sent + [plan[2]];
        if chatOk {
          sent := sent + [plan[3]];
          if notifs.Ok? {
            sent := sent + [plan[4]];
          }
        }
      }
    }
    ok := emailOk && historyOk && chatOk && notifs.Ok? && pushOk;
  }

  /** The dialog's state. */
  class Dialog {
    var toEmail: string
    var airQuality: string
    var messageAlert: string
    var sendAQ: Option<Reading>
    var subject: string
    var loading: bool
    var isOpen: bool
    var toasts: seq<string>
    /** Every request made, in order, with its outcome. */
    var calls: seq<Call>

    constructor ()
      ensures toEmail == "" && airQuality == "" && messageAlert == "" && sendAQ == None
      ensures subject == "Air Quality Alert" && !loading && !isOpen && toasts == [] && calls == []
    {
      toEmail, airQuality, messageAlert, sendAQ := "", "", "", None;
      subject, loading, isOpen, toasts, calls := "Air Quality Alert", false, false, [], [];
    }

    /** `fetchEmails`, run on mount; a failed request leaves the field as it is. */
    method FetchEmails(response: Outcome<seq<Option<string>>>)
      modifies this`toEmail
      ensures response.Ok? ==> toEmail == Recipients(response.value)
      ensures response.Fail? ==> toEmail == old(toEmail)
    {
      if response.Ok? {
        toEmail := Recipients(response.value);
      }
    }

    /** `fetchAirQuality`: the newest reading sets the advisory, the subject
        and the report. An empty list stores no reading and then fails on
        `aq.aqi`, like a failed request, with the failure text. */
    method FetchAirQuality(response: Outcome<seq<Reading>>, clock: Clock)
      modifies this`sendAQ, this`messageAlert, this`subject, this`airQuality
      ensures response.Ok? ==> sendAQ == FirstReading(response.value)
      ensures response.Fail? ==> sendAQ == old(sendAQ)
      ensures response.Ok? && |response.value| > 0 ==>
        var status := AirQualityStatus(sendAQ.value.aqi);
        && messageAlert == status.message && subject == status.subject
        && airQuality == Report(sendAQ.value, clock.time, clock.isoDate, status)
      ensures !(response.Ok? && |response.value| > 0) ==>
        messageAlert == old(messageAlert) && subject == old(subject) && airQuality == FailedReport
    {
      if response.Fail? {
        airQuality := FailedReport;
        return;
      }
      var aq := FirstReading(response.value);
      sendAQ := aq;
      if aq.None? {
        airQuality := FailedReport;
        return;
      }
      var status := AirQualityStatus(aq.value.aqi);
      messageAlert := status.message;
      subject := status.subject;
      airQuality := Report(aq.value, clock.time, clock.isoDate, status);
    }

    /** `onOpenChange`: opening the dialog also fetches the air quality. */
    method OpenChange(open: bool, response: Outcome<seq<Reading>>, clock: Clock)
      modifies this`isOpen, this`sendAQ, this`messageAlert, this`subject, this`airQuality
      ensures isOpen == open
      ensures !open ==>
        && sendAQ == old(sendAQ) && messageAlert == old(messageAlert)
        && subject == old(subject) && airQuality == old(airQuality)
      ensures open && response.Ok? && |response.value| > 0 ==>
        var status := AirQualityStatus(response.value[0].aqi);
        && sendAQ == Some(response.value[0]) && messageAlert == status.message && subject == status.subject
        && airQuality == Report(response.value[0], clock.time, clock.isoDate, status)
      ensures open && !(response.Ok? && |response.value| > 0) ==>
        messageAlert == old(messageAlert) && subject == old(subject) && airQuality == FailedReport
      ensures open ==> sendAQ == (if response.Ok? then FirstReading(response.value) else old(sendAQ))
    {
      isOpen := open;
      if open {
        FetchAirQuality(response, clock);
      }
    }

    /** The subject input's `onChange`. */
    method EditSubject(text: string)
      modifies this`subject
      ensures subject == text
    {
      subject := text;
    }

    /** The message textarea's `onChange`. */
    method EditMessage(text: string)
      modifies this`messageAlert
      ensures messageAlert == text
    {
      messageAlert := text;
    }

    /** `sendAlert`: the email, the history entry, the chat message, the
        notification-token query and the push, each awaited before the next;
        the first failure ends the run with an error toast. */
    method SendAlert(user: Option<AuthContext.SessionUser>, clock: Clock,
                     emailOk: bool, historyOk: bool, chatOk: bool, notifs: Outcome<seq<string>>, pushOk: bool)
      modifies this`loading, this`isOpen, this`toasts, this`calls
      ensures var plan := AlertCalls(toEmail, subject, messageAlert, airQuality, sendAQ, user, clock,
                                     emailOk, historyOk, chatOk, notifs, pushOk);
        && calls == old(calls) + ThroughFirstFailure(plan, CallOk)
        && (AllOk(plan, CallOk) ==> !isOpen && toasts == old(toasts) + ["Sent successfully"])
        && (!AllOk(plan, CallOk) ==> isOpen == old(isOpen) && toasts == old(toasts) + ["Unknown error occurred."])
      ensures !loading
    {
      loading := true;
      var sent, ok := RunAlertSteps(toEmail, subject, messageAlert, airQuality, sendAQ, user, clock,
                                    emailOk, historyOk, chatOk, notifs, pushOk);
      calls := calls + sent;
      if ok {
        isOpen := false;
        toasts := toasts + ["Sent successfully"];
      } else {
        toasts := toasts + ["Unknown error occurred."];
      }
      loading := false;
    }
  }
}
