/**
 * The e-mail simulator. Every client shares one outbox (a class attribute
 * in the original); a notification appends one message to it. Message
 * bodies are kept as the fields they are rendered from.
 */
module MockEmail {
  import opened Wrappers
  import opened Text
  import opened Schemas
  import opened OrderedDict

  /** What a message body shows: the team notice or the customer receipt. */
  datatype EmailBody =
    | TeamBody(team: string, jiraKey: string, jiraLink: string, priority: Priority, slaHours: int,
               consumerName: string, channel: string, city: string, state: string, title: string,
               excerpt: string, justification: string)
    | CustomerBody(consumerName: string, protocol: string, openedAt: Timestamp, title: string)

  datatype EmailMessage = EmailMessage(
    to: string,
    subject: string,
    body: EmailBody,
    sentAt: Timestamp,
    messageId: string,
    cc: Option<seq<string>>,
    priority: string)

  const NORMAL := "normal"
  const HIGH := "high"
  const EXCERPT_LENGTH := 500
  const ELLIPSIS := "..."
  const NOT_INFORMED := "N/I"
  const URGENT_PREFIX := "[URGENTE] "
  const HIGH_PREFIX := "[ALTA PRIORIDADE] "
  const TEAM_SUBJECT := "Nova reclama\U{E7}\U{E3}o atribu\U{ED}da - "
  const CUSTOMER_SUBJECT := "[TechNova] Recebemos sua reclama\U{E7}\U{E3}o - Protocolo "

  /** The description as the team notice shows it: its first 500 characters, then "..." when it was longer. */
  function Excerpt(description: string): (r: string)
    ensures |description| <= EXCERPT_LENGTH ==> r == description
    ensures |description| > EXCERPT_LENGTH ==> r == description[..EXCERPT_LENGTH] + ELLIPSIS
    ensures |r| <= EXCERPT_LENGTH + |ELLIPSIS|
  {
    if |description| > EXCERPT_LENGTH then description[..EXCERPT_LENGTH] + ELLIPSIS else description
  }

  /** `value or 'N/I'`. */
  function OrNotInformed(v: Option<string>): (r: string)
    ensures r != ""
  {
    if v.Some? && v.value != "" then v.value else NOT_INFORMED
  }

  /** `_build_subject`: an urgency prefix for critical and high priorities, then the ticket key. */
  function Subject(routing: RoutingDecision, ticket: TicketInfo): (r: string)
    ensures |r| >= |TEAM_SUBJECT + ticket.jiraKey|
    ensures r[|r| - |TEAM_SUBJECT + ticket.jiraKey|..] == TEAM_SUBJECT + ticket.jiraKey
  {
    var prefix := if routing.priority == Critical then URGENT_PREFIX
      else if routing.priority == High then HIGH_PREFIX else "";
    prefix + (TEAM_SUBJECT + ticket.jiraKey)
  }

  /** A subject ends with the ticket key and starts with the prefix its priority calls for. */
  lemma SubjectShape(routing: RoutingDecision, ticket: TicketInfo)
    ensures EndsWith(Subject(routing, ticket), TEAM_SUBJECT + ticket.jiraKey)
    ensures routing.priority == Critical ==> StartsWith(Subject(routing, ticket), URGENT_PREFIX)
    ensures routing.priority == High ==> StartsWith(Subject(routing, ticket), HIGH_PREFIX)
    ensures routing.priority != Critical && routing.priority != High ==> Subject(routing, ticket) == TEAM_SUBJECT + ticket.jiraKey
  {
    var r := Subject(routing, ticket);
    var tail := TEAM_SUBJECT + ticket.jiraKey;
    assert r[|r| - |tail|..] == tail;
    if routing.priority == Critical {
      assert r[..|URGENT_PREFIX|] == URGENT_PREFIX;
    } else if routing.priority == High {
      assert r[..|HIGH_PREFIX|] == HIGH_PREFIX;
    }
  }

  /** A subject names one ticket: the same priority and different keys give different subjects. */
  lemma SubjectNamesTicket(routing: RoutingDecision, t: TicketInfo, t': TicketInfo)
    requires Subject(routing, t) == Subject(routing, t')
    ensures t.jiraKey == t'.jiraKey
  {
    var r := Subject(routing, t);
    SubjectShape(routing, t);
    SubjectShape(routing, t');
    assert |t.jiraKey| == |t'.jiraKey|;
    assert t.jiraKey == r[|r| - |t.jiraKey|..];
  }

  /** The message `send_team_notification` sends: to the responsible address, high priority for high and critical routing. */
  function TeamEmail(complaint: ComplaintRaw, routing: RoutingDecision, ticket: TicketInfo, now: Timestamp,
                     messageId: string): (r: EmailMessage)
    ensures r.to == routing.responsibleEmail && r.subject == Subject(routing, ticket)
    ensures r.priority == HIGH <==> routing.priority == High || routing.priority == Critical
  {
    var body := TeamBody(routing.team, ticket.jiraKey, ticket.jiraLink, routing.priority, routing.slaHours,
      complaint.consumerName, complaint.channel, OrNotInformed(complaint.city), OrNotInformed(complaint.state),
      complaint.title, Excerpt(complaint.description), routing.justification);
    EmailMessage(routing.responsibleEmail, Subject(routing, ticket), body, now, messageId, None,
      if routing.priority == High || routing.priority == Critical then HIGH else NORMAL)
  }

  /** A team notice goes out at high priority exactly for high and critical routing, and at normal priority otherwise. */
  lemma TeamEmailPriority(complaint: ComplaintRaw, routing: RoutingDecision, ticket: TicketInfo, now: Timestamp,
                          messageId: string)
    ensures var e := TeamEmail(complaint, routing, ticket, now, messageId);
      (e.priority == HIGH <==> routing.priority == High || routing.priority == Critical)
      && (e.priority == HIGH || e.priority == NORMAL)
  {
  }

  /** The notification `send_team_notification` returns: the responsible address, the ticket id, status sent. */
  function TeamNotification(complaintId: string, routing: RoutingDecision, ticket: TicketInfo, now: Timestamp)
    : NotificationInfo
  {
    NotificationInfo(complaintId, ticket.jiraId, routing.responsibleEmail, Subject(routing, ticket), now, Sent)
  }

  /** The receipt sent to a customer who left a contact. */
  function CustomerEmail(complaint: ComplaintRaw, ticket: TicketInfo, now: Timestamp, messageId: string)
    : (e: EmailMessage)
    requires complaint.consumerContact.Some?
    ensures e.to == complaint.consumerContact.value && e.subject == CUSTOMER_SUBJECT + ticket.jiraKey
    ensures e.priority == NORMAL
  {
    EmailMessage(complaint.consumerContact.value, CUSTOMER_SUBJECT + ticket.jiraKey,
      CustomerBody(complaint.consumerName, ticket.jiraKey, ticket.createdAt, complaint.title),
      now, messageId, None, NORMAL)
  }

  /** The sent messages addressed to `address`, in order. */
  function AddressedTo(sent: seq<EmailMessage>, address: string): (r: seq<EmailMessage>)
    ensures forall e :: e in r <==> e in sent && e.to == address
    ensures |r| <= |sent|
  {
    if sent == [] then []
    else (if sent[0].to == address then [sent[0]] else []) + AddressedTo(sent[1..], address)
  }

  /** The priorities of `sent`, in order. */
  function Priorities(sent: seq<EmailMessage>): (r: seq<string>)
    ensures |r| == |sent| && forall i :: 0 <= i < |sent| ==> r[i] == sent[i].priority
  {
    seq(|sent|, i requires 0 <= i < |sent| => sent[i].priority)
  }

  /** The distinct recipients of `sent`. */
  function Recipients(sent: seq<EmailMessage>): (r: set<string>)
    ensures forall a :: a in r <==> exists i :: 0 <= i < |sent| && sent[i].to == a
  {
    set i | 0 <= i < |sent| :: sent[i].to
  }

  /** The shared outbox. */
  class Outbox {
    var sent: seq<EmailMessage>

    constructor ()
      ensures sent == []
    {
      sent := [];
    }
  }

  class MockEmailClient {
    const outbox: Outbox

    constructor (outbox: Outbox)
      ensures this.outbox == outbox
    {
      this.outbox := outbox;
    }

    /**
     * `send_team_notification`: one message appended, and the notification
     * records the responsible address, the ticket id and status sent.
     */
    method SendTeamNotification(complaintId: string, complaint: ComplaintRaw, routing: RoutingDecision,
                                ticket: TicketInfo, now: Timestamp, messageId: string)
      returns (notification: NotificationInfo)
      modifies outbox
      ensures outbox.sent == old(outbox.sent) + [TeamEmail(complaint, routing, ticket, now, messageId)]
      ensures notification == TeamNotification(complaintId, routing, ticket, now)
    {
      var email := TeamEmail(complaint, routing, ticket, now, messageId);
      outbox.sent := outbox.sent + [email];
      notification := TeamNotification(complaintId, routing, ticket, email.sentAt);
    }

    /** `send_customer_notification`: nothing is sent to a customer without a contact. */
    method SendCustomerNotification(complaint: ComplaintRaw, ticket: TicketInfo, now: Timestamp, messageId: string)
      returns (notification: Option<NotificationInfo>)
      modifies outbox
      ensures complaint.consumerContact.None? || complaint.consumerContact.value == "" ==>
        notification.None? && outbox.sent == old(outbox.sent)
      ensures complaint.consumerContact.Some? && complaint.consumerContact.value != "" ==>
        outbox.sent == old(outbox.sent) + [CustomerEmail(complaint, ticket, now, messageId)]
        && notification == Some(NotificationInfo(DisplayId(complaint), ticket.jiraId,
          complaint.consumerContact.value, CUSTOMER_SUBJECT + ticket.jiraKey, now, Sent))
    {
      if complaint.consumerContact.None? || complaint.consumerContact.value == "" {
        return None;
      }
      var email := CustomerEmail(complaint, ticket, now, messageId);
      outbox.sent := outbox.sent + [email];
      return Some(NotificationInfo(DisplayId(complaint), ticket.jiraId, email.to, email.subject, email.sentAt, Sent));
    }

    /** `get_sent_emails`: the outbox, in sending order. */
    function GetSentEmails(): (r: seq<EmailMessage>)
      reads outbox
      ensures r == outbox.sent
    {
      outbox.sent
    }

    /** `get_emails_to`: exactly the sent messages with that recipient. */
    function GetEmailsTo(address: string): (r: seq<EmailMessage>)
      reads outbox
      ensures forall e :: e in r <==> e in outbox.sent && e.to == address
    {
      AddressedTo(outbox.sent, address)
    }

    /** `clear_sent_emails`. */
    method ClearSentEmails()
      modifies outbox
      ensures outbox.sent == []
    {
      outbox.sent := [];
    }

    /**
     * `get_stats`: how many messages were sent, to how many distinct
     * recipients, and how many at each priority; the counts add up to the
     * total.
     */
    method GetStats() returns (totalSent: nat, uniqueRecipients: nat, byPriority: Dict<string, nat>)
      ensures totalSent == |outbox.sent|
      ensures uniqueRecipients == |Recipients(outbox.sent)|
      ensures byPriority == Histogram(Priorities(outbox.sent))
      ensures Sum(byPriority) == totalSent
    {
      var emails := outbox.sent;
      var priorities := Priorities(emails);
      byPriority := Empty();
      var i := 0;
      while i < |emails|
        invariant 0 <= i <= |emails|
        invariant Valid(byPriority) && byPriority == Histogram(priorities[..i])
      {
        assert priorities[..i + 1][..i] == priorities[..i];
        byPriority := Bump(byPriority, emails[i].priority);
        i := i + 1;
      }
      assert priorities[..i] == priorities;
      HistogramSum(priorities);
      totalSent := |emails|;
      uniqueRecipients := |Recipients(emails)|;
    }
  }
}
