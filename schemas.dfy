/**
 * The records that flow through the complaint pipeline and the enumerations
 * they use. An enumeration is a datatype with its wire value; text from an
 * outside party (an LLM, a loader) is turned into one by `Parse…`, which fails
 * exactly on strings that are not a value, as the enumeration constructors do.
 * Date-times are kept as the text a clock produced.
 */
module Schemas {
  import opened Wrappers

  type Timestamp = string

  datatype ComplaintSource = ReclameAqui | Jira | Chat | WhatsApp | Email | Phone

  function SourceValue(s: ComplaintSource): string {
    match s
    case ReclameAqui => "reclame_aqui"
    case Jira => "jira"
    case Chat => "chat"
    case WhatsApp => "whatsapp"
    case Email => "email"
    case Phone => "phone"
  }

  function ParseSource(v: string): (r: Option<ComplaintSource>)
    ensures r.Some? ==> SourceValue(r.value) == v
    ensures forall s: ComplaintSource :: SourceValue(s) == v ==> r == Some(s)
  {
    if v == "reclame_aqui" then Some(ReclameAqui)
    else if v == "jira" then Some(Jira)
    else if v == "chat" then Some(Chat)
    else if v == "whatsapp" then Some(WhatsApp)
    else if v == "email" then Some(Email)
    else if v == "phone" then Some(Phone)
    else None
  }

  datatype Sentiment = Neutro | Insatisfeito | MuitoInsatisfeito

  function SentimentValue(s: Sentiment): string {
    match s
    case Neutro => "neutro"
    case Insatisfeito => "insatisfeito"
    case MuitoInsatisfeito => "muito_insatisfeito"
  }

  datatype Urgency = Baixa | Media | Alta | Critica

  function UrgencyValue(u: Urgency): string {
    match u
    case Baixa => "baixa"
    case Media => "media"
    case Alta => "alta"
    case Critica => "critica"
  }

  datatype Priority = Low | Medium | High | Critical

  function PriorityValue(p: Priority): string {
    match p
    case Low => "low"
    case Medium => "medium"
    case High => "high"
    case Critical => "critical"
  }

  datatype ComplaintCategory =
    | AtrasoEntrega | ProdutoNaoEntregue | ProdutoDefeito | ProdutoDiferente | CobrancaIndevida
    | ReembolsoNaoProcessado | AtendimentoRuim | ProblemaVendedor | CancelamentoNegado
    | DificuldadeContato

  function CategoryValue(c: ComplaintCategory): string {
    match c
    case AtrasoEntrega => "Atraso na entrega"
    case ProdutoNaoEntregue => "Produto n\U{E3}o entregue"
    case ProdutoDefeito => "Produto com defeito"
    case ProdutoDiferente => "Produto diferente do anunciado"
    case CobrancaIndevida => "Cobran\U{E7}a indevida"
    case ReembolsoNaoProcessado => "Reembolso n\U{E3}o processado"
    case AtendimentoRuim => "Atendimento ruim"
    case ProblemaVendedor => "Problema com vendedor (marketplace)"
    case CancelamentoNegado => "Cancelamento negado"
    case DificuldadeContato => "Dificuldade de contato"
  }

  datatype WorkflowStatus =
    | New | Anonymized | Analyzed | QaApproved | QaRejected | Routed | TicketCreated | Notified
    | Completed | FailedLlm | FailedRouting | FailedJira | FailedEmail

  function StatusValue(s: WorkflowStatus): string {
    match s
    case New => "NEW"
    case Anonymized => "ANONYMIZED"
    case Analyzed => "ANALYZED"
    case QaApproved => "QA_APPROVED"
    case QaRejected => "QA_REJECTED"
    case Routed => "ROUTED"
    case TicketCreated => "TICKET_CREATED"
    case Notified => "NOTIFIED"
    case Completed => "COMPLETED"
    case FailedLlm => "FAILED_LLM"
    case FailedRouting => "FAILED_ROUTING"
    case FailedJira => "FAILED_JIRA"
    case FailedEmail => "FAILED_EMAIL"
  }

  predicate IsFailure(s: WorkflowStatus) {
    s.FailedLlm? || s.FailedRouting? || s.FailedJira? || s.FailedEmail?
  }

  /** Distinct members have distinct wire values, and the failures are exactly those named `FAILED_…`. */
  lemma StatusValuesDistinct(a: WorkflowStatus, b: WorkflowStatus)
    ensures StatusValue(a) == StatusValue(b) ==> a == b
    ensures IsFailure(a) <==> (|StatusValue(a)| >= 6 && StatusValue(a)[..6] == "FAILED")
  {
    if StatusValue(a) == StatusValue(b) {
      assert StatusValue(a)[0] == StatusValue(b)[0];
      assert |StatusValue(a)| == |StatusValue(b)|;
    }
    if |StatusValue(a)| >= 6 && StatusValue(a)[..6] == "FAILED" {
      assert StatusValue(a)[0] == 'F';
    }
  }

  datatype ComplaintRaw = ComplaintRaw(
    id: Option<string>,
    externalId: string,
    source: ComplaintSource,
    companyName: string,
    title: string,
    description: string,
    consumerName: string,
    consumerContact: Option<string>,
    createdAt: Timestamp,
    channel: string,
    city: Option<string>,
    state: Option<string>,
    productCategory: Option<string>,
    status: string)

  const DEFAULT_COMPANY := "TechNova Store"
  const DEFAULT_RAW_STATUS := "N\U{E3}o Processada"

  /** `complaint.id or complaint.external_id`: the identifier used in logs, tickets and notices. */
  function DisplayId(c: ComplaintRaw): (r: string)
    ensures c.id.Some? && c.id.value != "" ==> r == c.id.value
    ensures !(c.id.Some? && c.id.value != "") ==> r == c.externalId
  {
    if c.id.Some? && c.id.value != "" then c.id.value else c.externalId
  }

  datatype ComplaintAnalyzed = ComplaintAnalyzed(
    complaintId: string,
    summary: string,
    category: ComplaintCategory,
    sentiment: Sentiment,
    urgency: Urgency,
    keyIssues: seq<string>,
    qaApproved: bool,
    qaNotes: Option<string>,
    analyzedAt: Timestamp)

  datatype RoutingDecision = RoutingDecision(
    complaintId: string,
    team: string,
    teamId: string,
    responsibleEmail: string,
    priority: Priority,
    justification: string,
    slaHours: int,
    routedAt: Timestamp)

  datatype TicketInfo = TicketInfo(
    complaintId: string,
    jiraId: string,
    jiraKey: string,
    jiraLink: string,
    status: string,
    createdAt: Timestamp)

  datatype NotificationStatus = Sent | Failed

  datatype NotificationInfo = NotificationInfo(
    complaintId: string,
    ticketId: string,
    emailTo: string,
    emailSubject: string,
    sentAt: Timestamp,
    status: NotificationStatus)

  datatype TeamInfo = TeamInfo(
    id: string,
    name: string,
    email: string,
    manager: string,
    description: string,
    responsibilities: seq<string>,
    categories: seq<string>,
    slaHours: map<string, int>,
    exampleCases: seq<string>)

  /** Every field of a `ComplaintState` at one moment, the trail of statuses included. */
  datatype StateView = StateView(
    raw: ComplaintRaw,
    anonymized: Option<ComplaintRaw>,
    analyzed: Option<ComplaintAnalyzed>,
    routing: Option<RoutingDecision>,
    ticket: Option<TicketInfo>,
    notification: Option<NotificationInfo>,
    status: WorkflowStatus,
    errors: seq<string>,
    startedAt: Timestamp,
    completedAt: Option<Timestamp>,
    trail: seq<WorkflowStatus>)

  /**
   * The state of one complaint as the stages fill it in. `trail` records
   * every status the state has held, in order; the last is the current one.
   * No stage replaces the raw complaint, so it is fixed at creation.
   */
  class ComplaintState {
    const raw: ComplaintRaw
    var anonymized: Option<ComplaintRaw>
    var analyzed: Option<ComplaintAnalyzed>
    var routing: Option<RoutingDecision>
    var ticket: Option<TicketInfo>
    var notification: Option<NotificationInfo>
    var workflowStatus: WorkflowStatus
    var errors: seq<string>
    var startedAt: Timestamp
    var completedAt: Option<Timestamp>
    ghost var trail: seq<WorkflowStatus>

    ghost function View(): StateView
      reads this
    {
      StateView(raw, anonymized, analyzed, routing, ticket, notification, workflowStatus, errors,
        startedAt, completedAt, trail)
    }

    constructor (raw: ComplaintRaw, startedAt: Timestamp)
      ensures View() == StateView(raw, None, None, None, None, None, New, [], startedAt, None, [New])
    {
      this.raw := raw;
      this.startedAt := startedAt;
      anonymized, analyzed, routing, ticket, notification := None, None, None, None, None;
      workflowStatus := New;
      errors := [];
      completedAt := None;
      trail := [New];
    }

    /** Moves to status `s`, recording it on the trail. */
    method SetStatus(s: WorkflowStatus)
      modifies this
      ensures View() == old(View()).(status := s, trail := old(trail) + [s])
    {
      workflowStatus := s;
      trail := trail + [s];
    }
  }
}
