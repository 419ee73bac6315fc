/**
 * Emergency orchestration (index.js:72-142, 149-181): the SMS channel that is
 * either live or a logging stub, triggerEmergency's lookup, SMS and audit
 * steps with their failures contained, and checkForEmergency, which raises at
 * most one emergency per reading.
 *
 * The user table, the SMS channel and the audit file are external. The table
 * is a map; the outcome of each external call in one invocation (the lookup
 * rejecting, the live send failing, the file append failing) is a Faults
 * value given as input; the timestamp is a string parameter.
 */
module Emergency {
  import opened Wrappers
  import opened Readings
  import opened Rules
  import opened Messages

  /** The user id as a template literal renders it. */
  type UserId = string

  /** The columns of a `users` row that the pipeline reads; None is SQL NULL. */
  datatype UserRow = UserRow(name: Option<string>, emergencyContact: Option<string>)

  /** A nullable text column is truthy when it is neither NULL nor empty. */
  predicate Truthy(t: Option<string>)
  {
    t.Some? && t.value != ""
  }

  /** `row.emergency_contact || null` */
  function Contact(row: UserRow): (contact: Option<string>)
    ensures contact.None? <==> !Truthy(row.emergencyContact)
    ensures contact.Some? ==> contact == row.emergencyContact && contact.value != ""
  {
    if Truthy(row.emergencyContact) then row.emergencyContact else None
  }

  /** `row.name || \`user#${user_id}\`` */
  function DisplayName(row: UserRow, userId: UserId): (name: string)
    ensures Truthy(row.name) ==> name == row.name.value
    ensures !Truthy(row.name) ==> name == "user#" + userId
    ensures name != ""
  {
    if Truthy(row.name) then row.name.value else "user#" + userId
  }

  /** The three settings that enable the live SMS channel (index.js:73-76). */
  datatype TwilioConfig = TwilioConfig(accountSid: Option<string>, authToken: Option<string>, fromNumber: Option<string>)
  {
    /** TWILIO_ENABLED: every setting present and non-empty. */
    predicate Enabled()
    {
      Truthy(accountSid) && Truthy(authToken) && Truthy(fromNumber)
    }
  }

  datatype Sms = Sms(to: string, body: string)

  /** One use of the SMS channel: logged by the stub, or sent live with success or failure. */
  datatype Dispatch = Stubbed(sms: Sms) | Delivered(sms: Sms) | Failed(sms: Sms)

  /** The error the live channel raises and sendSms rethrows. */
  datatype SmsError = ChannelError

  /** What the external calls of one invocation do. */
  datatype Faults = Faults(lookupFails: bool, smsFails: bool, writeFails: bool)

  /** The observable effects: every use of the SMS channel, and the audit log's lines. */
  datatype Effects = Effects(dispatches: seq<Dispatch>, auditLog: seq<string>)

  /** The record sendSms leaves (index.js:87-103). */
  function SendOutcome(twilioEnabled: bool, sms: Sms, channelFails: bool): (d: Dispatch)
    ensures d.sms == sms
    ensures d.Stubbed? <==> !twilioEnabled
    ensures d.Failed? <==> twilioEnabled && channelFails
  {
    if !twilioEnabled then Stubbed(sms)
    else if channelFails then Failed(sms)
    else Delivered(sms)
  }

  /** The lookup returned a row: it did not reject and the id is in the table. */
  predicate Found(users: map<UserId, UserRow>, userId: UserId, f: Faults)
  {
    !f.lookupFails && userId in users
  }

  /**
   * The effects of triggerEmergency (index.js:111-142). Nothing happens when
   * the user is not found; otherwise the SMS channel is used exactly once when
   * the user has a contact, and exactly one audit line is appended unless the
   * write fails, whatever the SMS step did.
   */
  function Trigger(users: map<UserId, UserRow>, twilioEnabled: bool, e: Effects,
                   userId: UserId, message: string, ts: string, f: Faults): (e': Effects)
    ensures e.dispatches <= e'.dispatches && e.auditLog <= e'.auditLog
    ensures !Found(users, userId, f) ==> e' == e
    ensures |e'.dispatches| == |e.dispatches| + (if Found(users, userId, f) && Contact(users[userId]).Some? then 1 else 0)
    ensures Found(users, userId, f) && Contact(users[userId]).Some? ==>
      var row := users[userId];
      e'.dispatches[|e.dispatches|]
        == SendOutcome(twilioEnabled, Sms(Contact(row).value, SmsBody(DisplayName(row, userId), message)), f.smsFails)
    ensures |e'.auditLog| == |e.auditLog| + (if Found(users, userId, f) && !f.writeFails then 1 else 0)
    ensures Found(users, userId, f) && !f.writeFails ==>
      var row := users[userId];
      e'.auditLog[|e.auditLog|] == AuditLine(ts, DisplayName(row, userId), Contact(row), message)
  {
    if !Found(users, userId, f) then e
    else
      var row := users[userId];
      var contact := Contact(row);
      var userName := DisplayName(row, userId);
      var dispatches :=
        if contact.Some?
        then e.dispatches + [SendOutcome(twilioEnabled, Sms(contact.value, SmsBody(userName, message)), f.smsFails)]
        else e.dispatches;
      var auditLog :=
        if f.writeFails then e.auditLog
        else e.auditLog + [AuditLine(ts, userName, contact, message)];
      Effects(dispatches, auditLog)
  }

  /** The result of checkForEmergency and the effects it leaves. */
  datatype CheckResult = CheckResult(triggered: bool, effects: Effects)

  /**
   * checkForEmergency (index.js:149-181): `true` exactly when a rule fires,
   * whatever the lookup, channel and log do; then exactly one emergency is
   * triggered with the rule's message, otherwise nothing happens.
   */
  function Check(users: map<UserId, UserRow>, twilioEnabled: bool, e: Effects, userId: UserId,
                 hr: RawHeartRate, accel: RawAccel, ts: string, f: Faults, fmt: NumberFormat): (c: CheckResult)
    ensures c.triggered <==> Evaluate(Normalize(hr, accel)).Emergency?
    ensures !c.triggered ==> c.effects == e
    ensures c.triggered ==>
      c.effects == Trigger(users, twilioEnabled, e, userId, ReasonText(Evaluate(Normalize(hr, accel)).reason, fmt), ts, f)
    ensures |c.effects.dispatches| <= |e.dispatches| + 1 && |c.effects.auditLog| <= |e.auditLog| + 1
  {
    match Evaluate(Normalize(hr, accel))
    case NoEmergency => CheckResult(false, e)
    case Emergency(reason) => CheckResult(true, Trigger(users, twilioEnabled, e, userId, ReasonText(reason, fmt), ts, f))
  }

  /** A failing SMS channel changes nothing about the audit log (index.js:125-138). */
  lemma SmsFailureDoesNotBlockAudit(users: map<UserId, UserRow>, twilioEnabled: bool, e: Effects,
                                    userId: UserId, message: string, ts: string, f: Faults)
    ensures Trigger(users, twilioEnabled, e, userId, message, ts, f.(smsFails := true)).auditLog
         == Trigger(users, twilioEnabled, e, userId, message, ts, f.(smsFails := false)).auditLog
    ensures Trigger(users, !twilioEnabled, e, userId, message, ts, f).auditLog
         == Trigger(users, twilioEnabled, e, userId, message, ts, f).auditLog
  {
  }

  /** A failing audit write changes nothing about the SMS step (index.js:133-138). */
  lemma AuditFailureDoesNotBlockSms(users: map<UserId, UserRow>, twilioEnabled: bool, e: Effects,
                                    userId: UserId, message: string, ts: string, f: Faults)
    ensures Trigger(users, twilioEnabled, e, userId, message, ts, f.(writeFails := true)).dispatches
         == Trigger(users, twilioEnabled, e, userId, message, ts, f.(writeFails := false)).dispatches
  {
  }

  /**
   * An unknown user still gets `true` for an emergency reading, but no SMS is
   * attempted and no audit line written (index.js:114-118).
   */
  lemma UnknownUserStillTriggered(users: map<UserId, UserRow>, twilioEnabled: bool, e: Effects, userId: UserId,
                                  hr: RawHeartRate, accel: RawAccel, ts: string, f: Faults, fmt: NumberFormat)
    requires userId !in users
    requires Evaluate(Normalize(hr, accel)).Emergency?
    ensures Check(users, twilioEnabled, e, userId, hr, accel, ts, f, fmt) == CheckResult(true, e)
  {
  }

  /**
   * No suppression state: the same emergency reading twice for a known user
   * whose log writes succeed leaves two audit lines, one per reading.
   */
  lemma RepeatedReadingsRepeatAudit(users: map<UserId, UserRow>, twilioEnabled: bool, e: Effects, userId: UserId,
                                    hr: RawHeartRate, accel: RawAccel, ts1: string, ts2: string, f: Faults, fmt: NumberFormat)
    requires Evaluate(Normalize(hr, accel)).Emergency?
    requires Found(users, userId, f) && !f.writeFails
    ensures var first := Check(users, twilioEnabled, e, userId, hr, accel, ts1, f, fmt);
            var second := Check(users, twilioEnabled, first.effects, userId, hr, accel, ts2, f, fmt);
            second.triggered && |second.effects.auditLog| == |e.auditLog| + 2
  {
  }

  /**
   * The process-wide state of the backend: the user table, whether the live
   * SMS channel is configured, and the effects so far.
   */
  class Backend {
    const users: map<UserId, UserRow>
    const twilioEnabled: bool
    var dispatches: seq<Dispatch>
    var auditLog: seq<string>

    function State(): Effects
      reads this
    {
      Effects(dispatches, auditLog)
    }

    constructor (users: map<UserId, UserRow>, config: TwilioConfig)
      ensures this.users == users && twilioEnabled == config.Enabled()
      ensures dispatches == [] && auditLog == []
    {
      this.users := users;
      twilioEnabled := config.Enabled();
      dispatches := [];
      auditLog := [];
    }

    /** sendSms: the stub only logs; the live channel sends and rethrows its error. */
    method SendSms(to: string, body: string, channelFails: bool) returns (outcome: Outcome<SmsError>)
      modifies this`dispatches
      ensures dispatches == old(dispatches) + [SendOutcome(twilioEnabled, Sms(to, body), channelFails)]
      ensures outcome.Fail? <==> twilioEnabled && channelFails
    {
      var sms := Sms(to, body);
      if !twilioEnabled {
        dispatches := dispatches + [Stubbed(sms)];
        return Pass;
      }
      if channelFails {
        dispatches := dispatches + [Failed(sms)];
        return Fail(ChannelError);
      }
      dispatches := dispatches + [Delivered(sms)];
      return Pass;
    }

    /** triggerEmergency: lookup, then SMS and audit, each failure contained; never raises. */
    method TriggerEmergency(userId: UserId, message: string, ts: string, f: Faults)
      modifies this`dispatches, this`auditLog
      ensures State() == Trigger(users, twilioEnabled, old(State()), userId, message, ts, f)
    {
      if f.lookupFails {
        // dbGet rejected: the outer catch logs the error and returns
        return;
      }
      if userId !in users {
        return;
      }
      var row := users[userId];
      var contact := Contact(row);
      var userName := DisplayName(row, userId);
      if contact.Some? {
        // a failed send is logged and goes no further
        var _ := SendSms(contact.value, SmsBody(userName, message), f.smsFails);
      }
      var line := AuditLine(ts, userName, contact, message);
      if !f.writeFails {
        auditLog := auditLog + [line];
      }
    }

    /** checkForEmergency: evaluate the reading and trigger at most one emergency. */
    method CheckForEmergency(userId: UserId, hr: RawHeartRate, accel: RawAccel, ts: string, f: Faults, fmt: NumberFormat)
      returns (triggered: bool)
      modifies this`dispatches, this`auditLog
      ensures var c := Check(users, twilioEnabled, old(State()), userId, hr, accel, ts, f, fmt);
              triggered == c.triggered && State() == c.effects
    {
      match Evaluate(Normalize(hr, accel))
      case NoEmergency =>
        triggered := false;
      case Emergency(reason) =>
        TriggerEmergency(userId, ReasonText(reason, fmt), ts, f);
        triggered := true;
    }
  }
}
