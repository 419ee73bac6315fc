/**
 * The texts the pipeline produces: the emergency message of each rule
 * (index.js:155, 160, 175), the SMS body (index.js:127) and the audit line
 * (index.js:133).
 */
module Messages {
  import opened Wrappers
  import opened JsNumber
  import opened Rules

  /**
   * How numbers become text: `show` is JavaScript's String(n) as used by a
   * template literal, and `sqrtFixed2` gives `Math.sqrt(n).toFixed(2)` of a
   * squared magnitude. Both are floating-point formatting and are parameters.
   */
  datatype NumberFormat = NumberFormat(show: Number -> string, sqrtFixed2: Number -> string)

  const LowPrefix: string := "Low heart rate detected: "
  const HighPrefix: string := "Very high heart rate detected: "
  const FallPrefix: string := "Possible fall detected. Accel magnitude: "

  /** The message checkForEmergency hands to triggerEmergency. */
  function ReasonText(r: Reason, fmt: NumberFormat): string
  {
    match r
    case LowHeartRate(hr) => LowPrefix + fmt.show(hr)
    case HighHeartRate(hr) => HighPrefix + fmt.show(hr)
    case PossibleFall(sq) => FallPrefix + fmt.sqrtFixed2(sq)
  }

  predicate HasPrefix(s: string, p: string)
  {
    |p| <= |s| && s[..|p|] == p
  }

  /** Reads back from a message which rule raised it. */
  function RuleOfMessage(m: string): Option<Rule>
  {
    if HasPrefix(m, LowPrefix) then Some(Bradycardia)
    else if HasPrefix(m, HighPrefix) then Some(Tachycardia)
    else if HasPrefix(m, FallPrefix) then Some(Fall)
    else None
  }

  /** Every message names the rule that raised it, however numbers are formatted. */
  lemma MessageNamesRule(r: Reason, fmt: NumberFormat)
    ensures RuleOfMessage(ReasonText(r, fmt)) == Some(r.Rule())
  {
    var m := ReasonText(r, fmt);
    match r
    case LowHeartRate(hr) =>
      assert m[..|LowPrefix|] == LowPrefix;
    case HighHeartRate(hr) =>
      assert m == HighPrefix + fmt.show(hr);
      assert m[0] == HighPrefix[0] == 'V';
      assert m[..|HighPrefix|] == HighPrefix;
    case PossibleFall(sq) =>
      assert m == FallPrefix + fmt.sqrtFixed2(sq);
      assert m[0] == FallPrefix[0] == 'P';
      assert !HasPrefix(m, LowPrefix) by { assert LowPrefix[0] == 'L'; }
      assert !HasPrefix(m, HighPrefix) by { assert HighPrefix[0] == 'V'; }
      assert m[..|FallPrefix|] == FallPrefix;
  }

  /** The body of the SMS sent to the emergency contact. */
  function SmsBody(userName: string, message: string): (body: string)
    ensures |body| >= |message| && body[|body| - |message|..] == message
    ensures |"Emergency for "| <= |body| && body[..|"Emergency for "|] == "Emergency for "
  {
    "Emergency for " + userName + ": " + message
  }

  /** A nullable contact in a template literal: the contact, or "null". */
  function ContactText(contact: Option<string>): (text: string)
    ensures contact.Some? ==> text == contact.value
    ensures contact.None? ==> text == "null"
  {
    match contact
    case Some(c) => c
    case None => "null"
  }

  /** One line of the audit log, newline included. */
  function AuditLine(ts: string, userName: string, contact: Option<string>, message: string): string
  {
    ts + " | EMERGENCY | user:" + userName + " | contact:" + ContactText(contact) + " | msg:" + message + "\n"
  }

  predicate NoNewline(s: string)
  {
    forall i :: 0 <= i < |s| ==> s[i] != '\n'
  }

  /**
   * When none of its parts contains a newline, an audit line is exactly one
   * line of the log: it ends with its only newline, right after the message.
   */
  lemma AuditLineIsSingleLine(ts: string, userName: string, contact: Option<string>, message: string)
    requires NoNewline(ts) && NoNewline(userName) && NoNewline(ContactText(contact)) && NoNewline(message)
    ensures var line := AuditLine(ts, userName, contact, message);
            && |line| > 0 && line[|line| - 1] == '\n'
            && NoNewline(line[..|line| - 1])
            && line[..|ts|] == ts
            && line[|line| - 1 - |message|..|line| - 1] == message
  {
  }
}
