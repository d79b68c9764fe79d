/**
 * The communicator stage: it files a Jira ticket for the routed complaint,
 * notifies the responsible team and, when there is a contact, the
 * customer, and completes the workflow. A failure is classified as a Jira
 * or an e-mail failure by its text.
 */
module Communicator {
  import opened Wrappers
  import opened Text
  import opened Schemas
  import opened Base
  import opened MockJira
  import opened MockEmail
  import opened OrderedDict

  const COMMUNICATOR := "communicator"
  const COMMUNICATION_FAILED := "Communication failed: "
  /** The missing-client errors; each message is written in pieces that set apart the words classification looks at. */
  const JIRA_MISSING := AgentError("Jira" + " client not initialized", COMMUNICATOR, false)
  const EMAIL_MISSING := AgentError("Email client " + "not initialized", COMMUNICATOR, false)

  /** The failure status `process` picks for an error text: a Jira failure when it mentions a ticket or Jira. */
  function FailureStatus(text: string): (s: WorkflowStatus)
    ensures s == FailedJira <==> Contains(Lower(text), "ticket") || Contains(Lower(text), "jira")
    ensures s == FailedJira || s == FailedEmail
  {
    if Contains(Lower(text), "ticket") || Contains(Lower(text), "jira") then FailedJira else FailedEmail
  }

  /** A text holding neither `c` nor its capital `C` lowercases to a text without `c`. */
  lemma LowerLacks(s: string, c: char, C: char)
    requires 'a' <= c <= 'z' && C as int == c as int - 32
    requires c !in s && C !in s
    ensures c !in Lower(s)
  {
  }

  /** A text lacking one character of the needle does not contain it. */
  lemma LacksNeedle(s: string, needle: string, k: nat)
    requires k < |needle| && needle[k] !in s
    ensures !Contains(s, needle)
  {
  }

  /** `s` holds neither j nor k, in either case. */
  predicate LacksJK(s: string) {
    'j' !in s && 'J' !in s && 'k' !in s && 'K' !in s
  }

  /** A text without the letters J and K, in either case, mentions neither tickets nor Jira. */
  lemma NeitherTicketNorJira(s: string)
    requires LacksJK(s)
    ensures FailureStatus(s) == FailedEmail
  {
    LowerLacks(s, 'k', 'K');
    LowerLacks(s, 'j', 'J');
    LacksNeedle(Lower(s), "ticket", 3);
    LacksNeedle(Lower(s), "jira", 0);
  }

  /** A text with "Jira" after any prefix mentions Jira once lowercased. */
  lemma MentionsJira(a: string, b: string)
    ensures Contains(Lower(a + ("Jira" + b)), "jira")
  {
    var s := a + ("Jira" + b);
    var t := Lower(s);
    var n := |a|;
    assert s[n] == 'J' && s[n + 1] == 'i' && s[n + 2] == 'r' && s[n + 3] == 'a';
    assert t[n..n + 4] == "jira";
    assert OccursAt(t, "jira", n);
  }

  /** A missing Jira client is a Jira failure. */
  lemma JiraMissingIsJiraFailure()
    ensures FailureStatus(ErrorText(JIRA_MISSING)) == FailedJira
  {
    MentionsJira("[" + COMMUNICATOR + "] ", " client not initialized");
  }

  /** Two texts without J and K make a text without them. */
  lemma LacksJKConcat(a: string, b: string)
    requires LacksJK(a) && LacksJK(b)
    ensures LacksJK(a + b)
  {
  }

  /** The agent's tag holds neither J nor K. */
  lemma TagLacksJK()
    ensures LacksJK("[" + COMMUNICATOR + "] ")
  {
    assert LacksJK(COMMUNICATOR);
    LacksJKConcat("[", COMMUNICATOR);
    LacksJKConcat("[" + COMMUNICATOR, "] ");
  }

  /** Nor does the missing e-mail client's message. */
  lemma MessageLacksJK()
    ensures LacksJK(EMAIL_MISSING.message)
  {
    assert LacksJK("Email client ");
    assert LacksJK("not initialized");
    LacksJKConcat("Email client ", "not initialized");
  }

  /** A missing e-mail client is an e-mail failure: its text mentions neither tickets nor Jira. */
  lemma EmailMissingIsEmailFailure()
    ensures FailureStatus(ErrorText(EMAIL_MISSING)) == FailedEmail
  {
    TagLacksJK();
    MessageLacksJK();
    LacksJKConcat("[" + COMMUNICATOR + "] ", EMAIL_MISSING.message);
    NeitherTicketNorJira(ErrorText(EMAIL_MISSING));
  }

  /** What `process` raises after the error `e`: a recoverable communication failure carrying its text. */
  function CommunicationError(e: AgentError): (r: Raised)
    ensures r.Agent? && r.error.recoverable && r.error.agentName == COMMUNICATOR
    ensures r.error.message == COMMUNICATION_FAILED + ErrorText(e)
  {
    Agent(AgentError(COMMUNICATION_FAILED + ErrorText(e), COMMUNICATOR, true))
  }

  /**
   * The state after `process`, given the ticket filed (none without a Jira
   * client) and whether an e-mail client exists. A missing client takes the
   * status its error text selects: FAILED_JIRA for the Jira client
   * (`JiraMissingIsJiraFailure`), FAILED_EMAIL for the e-mail client
   * (`EmailMissingIsEmailFailure`). On success the team notification is
   * recorded and the workflow is complete.
   */
  function Communicated(v: StateView, created: Option<TicketInfo>, emailReady: bool, now: Timestamp): (r: StateView)
    requires v.routing.Some?
    ensures r.status == Completed <==> created.Some? && emailReady
    ensures r.status != Completed ==> r.notification == v.notification && r.completedAt == v.completedAt
    ensures r.raw == v.raw && r.routing == v.routing && r.errors == v.errors
    ensures |r.trail| > |v.trail| && r.trail[..|v.trail|] == v.trail && r.trail[|r.trail| - 1] == r.status
  {
    if created.None? then
      v.(status := FailedJira, trail := v.trail + [FailedJira])
    else if !emailReady then
      v.(ticket := created, status := FailedEmail, trail := v.trail + [TicketCreated, FailedEmail])
    else
      var note := TeamNotification(DisplayId(v.raw), v.routing.value, created.value, now);
      v.(ticket := created, notification := Some(note), status := Completed, completedAt := Some(now),
        trail := v.trail + [TicketCreated, Notified, Completed])
  }

  /** What `process` raises, given the ticket filed and whether an e-mail client exists. */
  function Failure(created: Option<TicketInfo>, emailReady: bool): (r: Option<Raised>)
    ensures r.None? <==> created.Some? && emailReady
  {
    if created.None? then Some(CommunicationError(JIRA_MISSING))
    else if !emailReady then Some(CommunicationError(EMAIL_MISSING))
    else None
  }

  /** `validate_input`: there is a routing decision and an analysis. */
  predicate ValidInput(v: StateView) {
    v.routing.Some? && v.analyzed.Some?
  }

  /**
   * Through the envelope, an e-mail failure still ends in FAILED_JIRA: the
   * envelope's failure status is set after `process` set FAILED_EMAIL, and
   * the ticket filed before the failure stays on the state.
   */
  lemma EmailFailureEndsInJiraFailure(v: StateView, t: TicketInfo, now: Timestamp)
    requires v.routing.Some?
    ensures var failure := Failure(Some(t), false);
      var entry := EnvelopeEntry(COMMUNICATOR, true, None, true, failure);
      var r := Concluded(Communicated(v, Some(t), false, now), entry, Completed, FailedJira);
      r.status == FailedJira && r.ticket == Some(t) && r.trail == v.trail + [TicketCreated, FailedEmail, FailedJira]
  {
    EmailMissingIsEmailFailure();
  }

  /** On success the workflow passes TICKET_CREATED, NOTIFIED and COMPLETED, in that order, and is complete. */
  lemma SuccessTrail(v: StateView, t: TicketInfo, now: Timestamp)
    requires v.routing.Some?
    ensures var entry := EnvelopeEntry(COMMUNICATOR, true, None, true, Failure(Some(t), true));
      var r := Concluded(Communicated(v, Some(t), true, now), entry, Completed, FailedJira);
      r.status == Completed && r.trail == v.trail + [TicketCreated, Notified, Completed, Completed]
      && r.ticket == Some(t) && r.notification.Some? && r.notification.value.ticketId == t.jiraId
      && r.completedAt == Some(now) && r.errors == v.errors
  {
  }

  /** The communicator: the envelope and the two clients it obtains on initialisation. */
  class CommunicatorAgent {
    const base: StatefulAgent
    var jira: MockJiraClient?
    var email: MockEmailClient?

    /** The envelope's name and statuses; once initialised, the agent holds both clients. */
    predicate Valid()
      reads this, base
    {
      base.name == COMMUNICATOR && base.successStatus == Completed && base.failureStatus == FailedJira
      && (base.initialized ==> jira != null && email != null)
    }

    /** The shared ticket table of the Jira client held. */
    ghost function Tables(): set<object>
      reads this
    {
      if jira == null then {} else {jira.table}
    }

    /** The shared outbox of the e-mail client held. */
    ghost function Outboxes(): set<object>
      reads this
    {
      if email == null then {} else {email.outbox}
    }

    constructor ()
      ensures Valid() && fresh(base) && !base.initialized && jira == null && email == null
    {
      base := new StatefulAgent(COMMUNICATOR, Completed, FailedJira);
      jira := null;
      email := null;
    }

    /** `initialize`: take the Jira and e-mail clients. */
    method Initialize(jiraClient: MockJiraClient, emailClient: MockEmailClient)
      modifies this
      ensures jira == jiraClient && email == emailClient
    {
      jira := jiraClient;
      email := emailClient;
    }

    /** `_create_ticket`: file a ticket with the Jira client, or fail without one. */
    method CreateTicket(complaintId: string, now: Timestamp) returns (r: Result<TicketInfo, AgentError>)
      requires jira != null ==> jira.table.Valid()
      modifies Tables()
      ensures jira == null ==> r == Err(JIRA_MISSING)
      ensures jira != null ==>
        jira.table.Valid() && jira.table.counter == old(jira.table.counter) + 1
        && r == Ok(NewTicket(jira.projectKey, jira.table.counter, complaintId, now))
        && Filed(old(jira.table.tickets), jira.table.tickets, r.value)
    {
      if jira == null {
        return Err(JIRA_MISSING);
      }
      var ticket := jira.CreateTicket(complaintId, now);
      return Ok(ticket);
    }

    /** `_notify_team`: send the team notice with the e-mail client, or fail without one. */
    method NotifyTeam(complaintId: string, complaint: ComplaintRaw, routing: RoutingDecision, ticket: TicketInfo,
                      now: Timestamp, messageId: string) returns (r: Result<NotificationInfo, AgentError>)
      modifies Outboxes()
      ensures email == null ==> r == Err(EMAIL_MISSING)
      ensures email != null ==>
        r == Ok(TeamNotification(complaintId, routing, ticket, now))
        && email.outbox.sent == old(email.outbox.sent) + [TeamEmail(complaint, routing, ticket, now, messageId)]
    {
      if email == null {
        return Err(EMAIL_MISSING);
      }
      var notification := email.SendTeamNotification(complaintId, complaint, routing, ticket, now, messageId);
      return Ok(notification);
    }

    /** `_notify_customer`: the customer receipt, or nothing without an e-mail client or a contact. */
    method NotifyCustomer(complaint: ComplaintRaw, ticket: TicketInfo, now: Timestamp, messageId: string)
      returns (r: Option<NotificationInfo>)
      modifies Outboxes()
      ensures var contact := complaint.consumerContact;
        r.Some? <==> email != null && contact.Some? && contact.value != ""
      ensures email != null ==>
        var contact := complaint.consumerContact;
        email.outbox.sent == old(email.outbox.sent)
          + (if contact.Some? && contact.value != "" then [CustomerEmail(complaint, ticket, now, messageId)] else [])
    {
      if email == null {
        return None;
      }
      r := email.SendCustomerNotification(complaint, ticket, now, messageId);
    }

    /** The `except` branch of `process`: the failure status the error text selects. */
    static method RecordFailure(state: ComplaintState, e: AgentError) returns (raised: Option<Raised>)
      modifies state
      ensures state.View() == old(state.View()).(status := FailureStatus(ErrorText(e)),
        trail := old(state.trail) + [FailureStatus(ErrorText(e))])
      ensures raised == Some(CommunicationError(e))
    {
      var text := Lower(ErrorText(e));
      if Contains(text, "ticket") || Contains(text, "jira") {
        state.SetStatus(FailedJira);
      } else {
        state.SetStatus(FailedEmail);
      }
      return Some(CommunicationError(e));
    }

    /** The ticket recorded on the state, at status TICKET_CREATED. */
    static method RecordTicket(state: ComplaintState, ticket: TicketInfo)
      modifies state
      ensures state.View() == old(state.View()).(ticket := Some(ticket), trail := old(state.trail) + [TicketCreated],
        status := TicketCreated)
    {
      state.ticket := Some(ticket);
      state.SetStatus(TicketCreated);
    }

    /** The team notification recorded, through NOTIFIED to COMPLETED at `now`. */
    static method RecordCompletion(state: ComplaintState, notification: NotificationInfo, now: Timestamp)
      modifies state
      ensures state.View() == old(state.View()).(notification := Some(notification), status := Completed,
        completedAt := Some(now), trail := old(state.trail) + [Notified, Completed])
    {
      state.notification := Some(notification);
      state.SetStatus(Notified);
      state.SetStatus(Completed);
      state.completedAt := Some(now);
      assert state.trail == old(state.trail) + [Notified, Completed];
    }

    /**
     * The part of `process` after the ticket is filed: notify the team and
     * the customer and complete, or record the e-mail failure.
     */
    method NotifyAndComplete(state: ComplaintState, complaintId: string, complaint: ComplaintRaw,
                             routing: RoutingDecision, ticket: TicketInfo, now: Timestamp,
                             teamMessageId: string, customerMessageId: string) returns (raised: Option<Raised>)
      modifies state, Outboxes()
      ensures jira != null ==> unchanged(jira.table)
      ensures email == null ==>
        raised == Some(CommunicationError(EMAIL_MISSING))
        && state.View() == old(state.View()).(status := FailedEmail, trail := old(state.trail) + [FailedEmail])
      ensures email != null ==>
        raised.None?
        && state.View() == old(state.View()).(notification := Some(TeamNotification(complaintId, routing, ticket, now)),
          status := Completed, completedAt := Some(now), trail := old(state.trail) + [Notified, Completed])
        && var contact := complaint.consumerContact;
          email.outbox.sent == old(email.outbox.sent) + [TeamEmail(complaint, routing, ticket, now, teamMessageId)]
            + (if contact.Some? && contact.value != "" then [CustomerEmail(complaint, ticket, now, customerMessageId)] else [])
    {
      var team := NotifyTeam(complaintId, complaint, routing, ticket, now, teamMessageId);
      if team.Err? {
        EmailMissingIsEmailFailure();
        raised := RecordFailure(state, team.error);
        return;
      }
      var customer := NotifyCustomer(complaint, ticket, now, customerMessageId);
      RecordCompletion(state, team.value, now);
      return None;
    }

    /**
     * `process`: file the ticket, notify the team, then the customer;
     * `teamMessageId` and `customerMessageId` are the messages' fresh ids.
     */
    method Process(state: ComplaintState, now: Timestamp, teamMessageId: string, customerMessageId: string)
      returns (raised: Option<Raised>)
      requires state.routing.Some?
      requires jira != null ==> jira.table.Valid()
      modifies state, Tables(), Outboxes()
      ensures var raw := state.raw;
        var created := if jira == null then None
          else Some(NewTicket(jira.projectKey, old(jira.table.counter) + 1, DisplayId(raw), now));
        state.View() == Communicated(old(state.View()), created, email != null, now)
        && raised == Failure(created, email != null)
      ensures jira != null ==>
        jira.table.Valid() && jira.table.counter == old(jira.table.counter) + 1
        && Filed(old(jira.table.tickets), jira.table.tickets,
          NewTicket(jira.projectKey, jira.table.counter, DisplayId(state.raw), now))
      ensures jira != null && email != null ==>
        var raw := state.raw;
        var t := NewTicket(jira.projectKey, jira.table.counter, DisplayId(raw), now);
        var team := [TeamEmail(raw, old(state.routing).value, t, now, teamMessageId)];
        var customer := if raw.consumerContact.Some? && raw.consumerContact.value != ""
          then [CustomerEmail(raw, t, now, customerMessageId)] else [];
        email.outbox.sent == old(email.outbox.sent) + team + customer
      ensures jira == null && email != null ==> email.outbox.sent == old(email.outbox.sent)
    {
      var complaint := state.raw;
      var routing := state.routing.value;
      var complaintId := DisplayId(complaint);
      var created := CreateTicket(complaintId, now);
      if created.Err? {
        JiraMissingIsJiraFailure();
        raised := RecordFailure(state, created.error);
        return;
      }
      var ticket := created.value;
      ghost var table := jira.table;
      ghost var filed := table.tickets;
      RecordTicket(state, ticket);
      raised := NotifyAndComplete(state, complaintId, complaint, routing, ticket, now, teamMessageId, customerMessageId);
      assert table.tickets == filed;
    }

    /**
     * `process` followed by the envelope's record of its outcome, for an
     * initialised agent: both clients are there, so the ticket is filed, the
     * team notified and the workflow completed.
     */
    method ProcessAndConclude(state: ComplaintState, now: Timestamp, teamMessageId: string, customerMessageId: string)
      requires Valid() && base.initialized && state.routing.Some?
      requires jira != null && email != null && jira.table.Valid()
      modifies state, jira.table, email.outbox
      ensures var v := old(state.View());
        var created := NewTicket(jira.projectKey, old(jira.table.counter) + 1, DisplayId(v.raw), now);
        state.View() == Concluded(Communicated(v, Some(created), true, now), None, Completed, FailedJira)
      ensures jira.table.Valid()
    {
      var raised := Process(state, now, teamMessageId, customerMessageId);
      base.Exit(state, raised);
    }

    /**
     * The envelope around `process` for an agent holding both clients: an
     * invalid state is recorded as such, a valid one is processed to
     * completion.
     */
    method Run(state: ComplaintState, now: Timestamp, teamMessageId: string, customerMessageId: string)
      requires Valid() && jira != null && email != null && jira.table.Valid()
      modifies base, state, jira.table, email.outbox
      ensures base.initialized && jira.table.Valid()
      ensures var v := old(state.View());
        !ValidInput(v) ==> state.View() == Concluded(v, Some(InvalidEntry(COMMUNICATOR)), Completed, FailedJira)
      ensures var v := old(state.View());
        var created := NewTicket(jira.projectKey, old(jira.table.counter) + 1, DisplayId(v.raw), now);
        ValidInput(v) ==>
          state.View() == Concluded(Communicated(v, Some(created), true, now), None, Completed, FailedJira)
    {
      var proceed := base.Enter(state, None, state.routing.Some? && state.analyzed.Some?);
      if proceed {
        ProcessAndConclude(state, now, teamMessageId, customerMessageId);
      }
    }

    /**
     * `StatefulAgent.execute` for the communicator: initialise once, which
     * cannot fail, then validate, process and record the outcome. Since an
     * initialised agent holds both clients, a valid state always completes:
     * the missing-client failures of `process` cannot happen here.
     */
    method Execute(state: ComplaintState, jiraClient: MockJiraClient, emailClient: MockEmailClient,
                   now: Timestamp, teamMessageId: string, customerMessageId: string)
      requires Valid()
      requires jiraClient.table.Valid() && (jira != null ==> jira.table.Valid())
      modifies this, base, state, Tables(), Outboxes(), jiraClient.table, emailClient.outbox
      ensures Valid() && base.initialized && jira.table.Valid()
      ensures !old(base.initialized) ==> jira == jiraClient && email == emailClient
      ensures old(base.initialized) ==> jira == old(jira) && email == old(email)
      ensures var v := old(state.View());
        !ValidInput(v) ==> state.View() == Concluded(v, Some(InvalidEntry(COMMUNICATOR)), Completed, FailedJira)
      ensures var v := old(state.View());
        var j := jira;
        var created := NewTicket(j.projectKey, old(j.table.counter) + 1, DisplayId(v.raw), now);
        ValidInput(v) ==>
          state.View() == Concluded(Communicated(v, Some(created), true, now), None, Completed, FailedJira)
    {
      if !base.initialized {
        Initialize(jiraClient, emailClient);
      }
      Run(state, now, teamMessageId, customerMessageId);
    }

    /** `get_stats`: the ticket and e-mail statistics of the clients held, none for a missing client. */
    method GetStats() returns (tickets: Option<(nat, Dict<string, nat>)>, emails: Option<(nat, nat, Dict<string, nat>)>)
      requires jira != null ==> jira.table.Valid()
      ensures tickets.Some? <==> jira != null
      ensures emails.Some? <==> email != null
      ensures tickets.Some? ==> tickets.value.0 == |jira.table.tickets.keys| && OrderedDict.Valid(tickets.value.1) && Sum(tickets.value.1) == tickets.value.0
      ensures emails.Some? ==>
        emails.value.0 == |email.outbox.sent| && OrderedDict.Valid(emails.value.2) && Sum(emails.value.2) == emails.value.0
        && emails.value.1 == |Recipients(email.outbox.sent)|
    {
      tickets, emails := None, None;
      if jira != null {
        var total, byStatus := jira.GetStats();
        tickets := Some((total, byStatus));
      }
      if email != null {
        var totalSent, uniqueRecipients, byPriority := email.GetStats();
        emails := Some((totalSent, uniqueRecipients, byPriority));
      }
    }
  }
}
