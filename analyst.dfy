/**
 * The analyst stage: it sends the (anonymised) complaint to the LLM, turns
 * the reply into a `ComplaintAnalyzed` with forgiving parsers and a default
 * analysis for replies it cannot use, and raises the urgency when the raw
 * text contains urgency keywords.
 */
module Analyst {
  import opened Wrappers
  import opened Text
  import opened JsonValue
  import opened Schemas
  import opened Base
  import opened Prompts
  import opened AzureOpenAI

  // -----------------------------------------------------------------------
  // Category.

  /** The flexible category table, in declaration order. */
  const CATEGORY_MAPPINGS: seq<(string, ComplaintCategory)> := [
    ("atraso na entrega", AtrasoEntrega),
    ("atraso entrega", AtrasoEntrega),
    ("produto n\U{E3}o entregue", ProdutoNaoEntregue),
    ("produto nao entregue", ProdutoNaoEntregue),
    ("n\U{E3}o entregue", ProdutoNaoEntregue),
    ("produto com defeito", ProdutoDefeito),
    ("defeito", ProdutoDefeito),
    ("produto diferente do anunciado", ProdutoDiferente),
    ("produto diferente", ProdutoDiferente),
    ("cobran\U{E7}a indevida", CobrancaIndevida),
    ("cobranca indevida", CobrancaIndevida),
    ("reembolso n\U{E3}o processado", ReembolsoNaoProcessado),
    ("reembolso nao processado", ReembolsoNaoProcessado),
    ("reembolso", ReembolsoNaoProcessado),
    ("atendimento ruim", AtendimentoRuim),
    ("problema com vendedor (marketplace)", ProblemaVendedor),
    ("problema com vendedor", ProblemaVendedor),
    ("marketplace", ProblemaVendedor),
    ("cancelamento negado", CancelamentoNegado),
    ("cancelamento", CancelamentoNegado),
    ("dificuldade de contato", DificuldadeContato),
    ("dificuldade contato", DificuldadeContato)]

  /** `mappings[key]` when present: the value of the first entry with that key. */
  function Lookup<V>(entries: seq<(string, V)>, key: string): (r: Option<V>)
    ensures r.None? <==> forall i :: 0 <= i < |entries| ==> entries[i].0 != key
    ensures r.Some? ==> exists i :: 0 <= i < |entries| && entries[i].0 == key && r.value == entries[i].1
  {
    if entries == [] then None
    else if entries[0].0 == key then Some(entries[0].1)
    else Lookup(entries[1..], key)
  }

  /** `key in normalized or normalized in key`. */
  predicate Related(key: string, normalized: string) {
    Contains(normalized, key) || Contains(key, normalized)
  }

  /** The index of the first entry whose key is related to `normalized`. */
  function FirstRelated<V>(entries: seq<(string, V)>, normalized: string): (r: Option<nat>)
    ensures r.None? <==> forall i :: 0 <= i < |entries| ==> !Related(entries[i].0, normalized)
    ensures r.Some? ==> r.value < |entries| && Related(entries[r.value].0, normalized)
    ensures r.Some? ==> forall i :: 0 <= i < r.value ==> !Related(entries[i].0, normalized)
  {
    if entries == [] then None
    else if Related(entries[0].0, normalized) then Some(0)
    else
      var rest := FirstRelated(entries[1..], normalized);
      if rest.Some? then Some(rest.value + 1) else None
  }

  function Normalize(s: string): string {
    Strip(Lower(s))
  }

  /**
   * `_parse_category`: the exact key of the normalised text, else the first
   * key in table order related to it either way, else "Atendimento ruim".
   */
  function ParseCategory(s: string): (r: ComplaintCategory)
    ensures Lookup(CATEGORY_MAPPINGS, Normalize(s)).Some? ==> r == Lookup(CATEGORY_MAPPINGS, Normalize(s)).value
    ensures Lookup(CATEGORY_MAPPINGS, Normalize(s)).None? ==>
      var k := FirstRelated(CATEGORY_MAPPINGS, Normalize(s));
      (k.Some? ==> r == CATEGORY_MAPPINGS[k.value].1) && (k.None? ==> r == AtendimentoRuim)
  {
    var normalized := Normalize(s);
    match Lookup(CATEGORY_MAPPINGS, normalized)
    case Some(c) => c
    case None =>
      match FirstRelated(CATEGORY_MAPPINGS, normalized)
      case Some(i) => CATEGORY_MAPPINGS[i].1
      case None => AtendimentoRuim
  }

  lemma {:induction false} AllSpacesStripLeft(s: string)
    requires forall i :: 0 <= i < |s| ==> IsSpace(s[i])
    ensures StripLeft(s) == ""
  {
    if s != [] {
      AllSpacesStripLeft(s[1..]);
    }
  }

  /** No key of the category table is empty. */
  lemma NoEmptyCategoryKey()
    ensures forall i :: 0 <= i < |CATEGORY_MAPPINGS| ==> CATEGORY_MAPPINGS[i].0 != ""
    ensures Lookup(CATEGORY_MAPPINGS, "") == None
  {
    var e := CATEGORY_MAPPINGS;
    assert e[0].0 != "" && e[1].0 != "" && e[2].0 != "" && e[3].0 != "";
  }

  /** Whitespace normalises to the empty text. */
  lemma BlankNormalizesEmpty(s: string)
    requires forall i :: 0 <= i < |s| ==> IsSpace(s[i])
    ensures Normalize(s) == ""
  {
    assert forall i :: 0 <= i < |s| ==> Lower(s)[i] == s[i];
    AllSpacesStripLeft(Lower(s));
  }

  /** The empty text is contained in the first key of the table. */
  lemma EmptyRelatesFirst()
    ensures FirstRelated(CATEGORY_MAPPINGS, "") == Some(0)
  {
    assert OccursAt(CATEGORY_MAPPINGS[0].0, "", 0);
  }

  /**
   * An empty or all-whitespace category resolves to "Atraso na entrega":
   * no key is empty, and the empty text is contained in the first key.
   */
  lemma BlankCategoryIsDelay(s: string)
    requires forall i :: 0 <= i < |s| ==> IsSpace(s[i])
    ensures ParseCategory(s) == AtrasoEntrega
  {
    BlankNormalizesEmpty(s);
    NoEmptyCategoryKey();
    EmptyRelatesFirst();
  }

  /** Case does not matter to any of the three parsers. */
  lemma NormalizeIgnoresCase(s: string)
    ensures Normalize(Lower(s)) == Normalize(s)
  {
    LowerIdempotent(s);
  }

  // -----------------------------------------------------------------------
  // Sentiment and urgency.

  const SENTIMENT_MAPPINGS: seq<(string, Sentiment)> := [
    ("neutro", Neutro),
    ("insatisfeito", Insatisfeito),
    ("muito_insatisfeito", MuitoInsatisfeito),
    ("muito insatisfeito", MuitoInsatisfeito)]

  /** `_parse_sentiment`: the table entry of the normalised text, else insatisfeito. */
  function ParseSentiment(s: string): (r: Sentiment)
    ensures Lookup(SENTIMENT_MAPPINGS, Normalize(s)).Some? ==> r == Lookup(SENTIMENT_MAPPINGS, Normalize(s)).value
    ensures Lookup(SENTIMENT_MAPPINGS, Normalize(s)).None? ==> r == Insatisfeito
  {
    match Lookup(SENTIMENT_MAPPINGS, Normalize(s))
    case Some(v) => v
    case None => Insatisfeito
  }

  const URGENCY_MAPPINGS: seq<(string, Urgency)> := [
    ("baixa", Baixa),
    ("media", Media),
    ("m\U{E9}dia", Media),
    ("alta", Alta),
    ("critica", Critica),
    ("cr\U{ED}tica", Critica)]

  /** `_parse_urgency`: the table entry of the normalised text, else media. */
  function ParseUrgency(s: string): (r: Urgency)
    ensures Lookup(URGENCY_MAPPINGS, Normalize(s)).Some? ==> r == Lookup(URGENCY_MAPPINGS, Normalize(s)).value
    ensures Lookup(URGENCY_MAPPINGS, Normalize(s)).None? ==> r == Media
  {
    match Lookup(URGENCY_MAPPINGS, Normalize(s))
    case Some(v) => v
    case None => Media
  }

  /** The order of `_urgency_is_higher`; a string that is not an urgency ranks as baixa. */
  function UrgencyOrder(s: string): (n: nat)
    ensures n <= 3
    ensures n == 0 <== s != "media" && s != "alta" && s != "critica"
  {
    if s == "media" then 1 else if s == "alta" then 2 else if s == "critica" then 3 else 0
  }

  function Rank(u: Urgency): nat {
    match u
    case Baixa => 0
    case Media => 1
    case Alta => 2
    case Critica => 3
  }

  /** `_urgency_is_higher`: a strict comparison of the two orders. */
  predicate UrgencyIsHigher(candidate: string, current: string) {
    UrgencyOrder(candidate) > UrgencyOrder(current)
  }

  /** On wire values the order is the urgency's rank: baixa < media < alta < critica. */
  lemma OrderIsRank(u: Urgency, v: Urgency)
    ensures UrgencyOrder(UrgencyValue(u)) == Rank(u)
    ensures UrgencyIsHigher(UrgencyValue(u), UrgencyValue(v)) <==> Rank(u) > Rank(v)
  {
  }

  /** `Urgency(value)` for the strings that are urgencies. */
  function UrgencyFromValue(v: string): (r: Option<Urgency>)
    ensures r.Some? ==> UrgencyValue(r.value) == v
    ensures UrgencyOrder(v) > 0 ==> r.Some? && Rank(r.value) == UrgencyOrder(v)
  {
    if v == "baixa" then Some(Baixa)
    else if v == "media" then Some(Media)
    else if v == "alta" then Some(Alta)
    else if v == "critica" then Some(Critica)
    else None
  }

  /**
   * The keyword override: the keyword urgency replaces the parsed one when
   * it is strictly higher.
   */
  function Ratchet(parsed: Urgency, keyword: Option<string>): (r: Urgency)
    ensures keyword.None? ==> r == parsed
  {
    if keyword.Some? && UrgencyIsHigher(keyword.value, UrgencyValue(parsed)) then
      UrgencyFromValue(keyword.value).value
    else parsed
  }

  /** The final urgency is the higher of the parsed urgency and the keyword urgency, so keywords never lower it. */
  lemma RatchetIsMax(parsed: Urgency, keyword: string)
    ensures Rank(Ratchet(parsed, Some(keyword))) == if UrgencyOrder(keyword) > Rank(parsed) then UrgencyOrder(keyword) else Rank(parsed)
    ensures Rank(Ratchet(parsed, Some(keyword))) >= Rank(parsed)
  {
    OrderIsRank(parsed, parsed);
  }

  // -----------------------------------------------------------------------
  // The LLM reply.

  const DEFAULT_SUMMARY := "Erro ao processar an\U{E1}lise"
  const DEFAULT_KEY_ISSUE := "An\U{E1}lise autom\U{E1}tica falhou"
  const MISSING_SUMMARY := "Resumo n\U{E3}o dispon\U{ED}vel"

  /** The analysis used when the reply cannot be turned into one. */
  function DefaultAnalysis(complaintId: string, now: Timestamp): ComplaintAnalyzed {
    ComplaintAnalyzed(complaintId, DEFAULT_SUMMARY, AtendimentoRuim, Insatisfeito, Media,
      [DEFAULT_KEY_ISSUE], false, None, now)
  }

  /** The strings of a list of JSON strings; `None` when some item is not a string. */
  function Strings(items: seq<Json>): (r: Option<seq<string>>)
    ensures r.Some? <==> forall i :: 0 <= i < |items| ==> items[i].JStr?
    ensures r.Some? ==> |r.value| == |items| && forall i :: 0 <= i < |items| ==> r.value[i] == items[i].s
  {
    if items == [] then Some([])
    else if !items[0].JStr? then None
    else
      var rest := Strings(items[1..]);
      if rest.Some? then Some([items[0].s] + rest.value) else None
  }

  /**
   * The key issues of a reply: a string becomes a one-item list, a list is
   * cut to its first 4 items, which must be strings; anything else fails
   * (slicing it raises).
   */
  function KeyIssues(v: Json): (r: Option<seq<string>>)
    ensures v.JStr? ==> r == Some([v.s])
    ensures v.JArr? ==> (r.Some? <==> forall i :: 0 <= i < |v.items| && i < 4 ==> v.items[i].JStr?)
    ensures v.JArr? && r.Some? ==> |r.value| == if |v.items| < 4 then |v.items| else 4
    ensures v.JArr? && r.Some? ==> forall i :: 0 <= i < |r.value| ==> r.value[i] == v.items[i].s
    ensures !v.JStr? && !v.JArr? ==> r.None?
    ensures r.Some? ==> |r.value| <= 4
  {
    match v
    case JStr(s) => Some([s])
    case JArr(items) =>
      var first := items[..if |items| < 4 then |items| else 4];
      assert forall i :: 0 <= i < |first| ==> first[i] == items[i];
      Strings(first)
    case _ => None
  }

  /**
   * The body of `_parse_llm_response`'s `try`: `None` where a step raises
   * (a reply that is not an object, a field of the wrong type).
   */
  function DecodeAnalysis(complaintId: string, response: Json, now: Timestamp): (r: Option<ComplaintAnalyzed>)
    ensures !response.JObj? ==> r.None?
    ensures r.Some? ==> |r.value.keyIssues| <= 4 && r.value.complaintId == complaintId && r.value.analyzedAt == now
  {
    if !response.JObj? then None
    else
      var f := response.fields;
      var category := Get(f, "category", JStr("Atendimento ruim"));
      var sentiment := Get(f, "sentiment", JStr("insatisfeito"));
      var urgency := Get(f, "urgency", JStr("media"));
      var summary := Get(f, "summary", JStr(MISSING_SUMMARY));
      var issues := KeyIssues(Get(f, "key_issues", JArr([])));
      if category.JStr? && sentiment.JStr? && urgency.JStr? && summary.JStr? && issues.Some? then
        Some(ComplaintAnalyzed(complaintId, summary.s, ParseCategory(category.s), ParseSentiment(sentiment.s),
          ParseUrgency(urgency.s), issues.value, false, None, now))
      else None
  }

  /** `_parse_llm_response`: the decoded analysis, or the default one. */
  function ParseLlmResponse(complaintId: string, response: Json, now: Timestamp): (r: ComplaintAnalyzed)
    ensures DecodeAnalysis(complaintId, response, now).None? ==> r == DefaultAnalysis(complaintId, now)
    ensures DecodeAnalysis(complaintId, response, now).Some? ==> r == DecodeAnalysis(complaintId, response, now).value
    ensures |r.keyIssues| <= 4 && r.complaintId == complaintId
  {
    match DecodeAnalysis(complaintId, response, now)
    case Some(a) => a
    case None => DefaultAnalysis(complaintId, now)
  }

  /** A reply with every field present and of the right type is taken field by field. */
  lemma FullReply(complaintId: string, fields: map<string, Json>, now: Timestamp, items: seq<Json>,
                  category: string, sentiment: string, urgency: string, summary: string)
    requires "category" in fields && fields["category"] == JStr(category)
    requires "sentiment" in fields && fields["sentiment"] == JStr(sentiment)
    requires "urgency" in fields && fields["urgency"] == JStr(urgency)
    requires "summary" in fields && fields["summary"] == JStr(summary)
    requires "key_issues" in fields && fields["key_issues"] == JArr(items)
    requires forall i :: 0 <= i < |items| ==> items[i].JStr?
    ensures var a := ParseLlmResponse(complaintId, JObj(fields), now);
      a.category == ParseCategory(category) && a.sentiment == ParseSentiment(sentiment)
      && a.urgency == ParseUrgency(urgency) && a.summary == summary
      && |a.keyIssues| == (if |items| < 4 then |items| else 4)
      && forall i :: 0 <= i < |a.keyIssues| ==> a.keyIssues[i] == items[i].s
  {
    assert KeyIssues(JArr(items)).Some?;
  }

  // -----------------------------------------------------------------------
  // The stage.

  const ANALYST := "analyst"
  const CLIENT_MISSING := "LLM client not initialized"
  const ANALYSIS_FAILED := "LLM analysis failed: "

  /** `validate_input`: title and description are both non-empty. */
  predicate ValidInput(raw: ComplaintRaw) {
    raw.title != "" && raw.description != ""
  }

  /** The user prompt: the template filled from the anonymised copy when there is one. */
  function UserPrompt(template: Template, raw: ComplaintRaw, anonymized: Option<ComplaintRaw>): string {
    var c := if anonymized.Some? then anonymized.value else raw;
    Fill(template, c.title, c.description, SourceValue(raw.source), raw.createdAt)
  }

  /** With the classification template this is `get_analysis_prompt` on the copy being analysed. */
  lemma UserPromptIsAnalysisPrompt(raw: ComplaintRaw, anonymized: Option<ComplaintRaw>)
    ensures var c := if anonymized.Some? then anonymized.value else raw;
      UserPrompt(ANALYSIS_TEMPLATE, raw, anonymized)
        == AnalysisPrompt(c.title, c.description, SourceValue(raw.source), raw.createdAt)
  {
  }

  /**
   * What `process` produces from the LLM's reply, the identifier and the
   * keyword urgency of the raw text: the analysis with the keyword override
   * applied, or what it raises.
   */
  function Outcome(hasClient: bool, reply: Result<Json, string>, complaintId: string, keyword: Option<string>,
                   now: Timestamp): (r: Result<ComplaintAnalyzed, Raised>)
    ensures !hasClient ==> r == Err(Agent(AgentError(CLIENT_MISSING, ANALYST, false)))
    ensures hasClient && reply.Err? ==> r == Err(Agent(AgentError(ANALYSIS_FAILED + reply.error, ANALYST, true)))
    ensures r.Ok? <==> hasClient && reply.Ok?
    ensures r.Ok? ==> var parsed := ParseLlmResponse(complaintId, reply.value, now);
      r.value == parsed.(urgency := Ratchet(parsed.urgency, keyword))
  {
    if !hasClient then Err(Agent(AgentError(CLIENT_MISSING, ANALYST, false)))
    else if reply.Err? then Err(Agent(AgentError(ANALYSIS_FAILED + reply.error, ANALYST, true)))
    else
      var parsed := ParseLlmResponse(complaintId, reply.value, now);
      Ok(parsed.(urgency := Ratchet(parsed.urgency, keyword)))
  }

  /** The text the urgency keywords are looked for in: the raw title and description. */
  function KeywordText(raw: ComplaintRaw): string {
    raw.title + " " + raw.description
  }

  /**
   * The analyst: the envelope, the two prompts it sends (the module
   * constants, fixed at construction) and whether it holds an LLM client.
   */
  class AnalystAgent {
    const base: StatefulAgent
    const systemPrompt: string
    const template: Template
    var hasClient: bool

    /** The envelope carries the analyst's name and statuses. */
    predicate Valid() {
      base.name == ANALYST && base.successStatus == Analyzed && base.failureStatus == FailedLlm
    }

    constructor ()
      ensures Valid() && fresh(base) && !base.initialized && !hasClient
      ensures systemPrompt == SYSTEM_PROMPT_ANALYST && template == ANALYSIS_TEMPLATE
    {
      base := new StatefulAgent(ANALYST, Analyzed, FailedLlm);
      systemPrompt := SYSTEM_PROMPT_ANALYST;
      template := ANALYSIS_TEMPLATE;
      hasClient := false;
    }

    /** `initialize`: create the client; `clientFailure` is what creating it raised, if anything. */
    method Initialize(clientFailure: Option<string>) returns (raised: Option<Raised>)
      modifies this
      ensures raised == if clientFailure.Some? then Some(Other(clientFailure.value)) else None
      ensures hasClient == (old(hasClient) || clientFailure.None?)
    {
      if clientFailure.Some? {
        return Some(Other(clientFailure.value));
      }
      hasClient := true;
      return None;
    }

    /** `process`: the analysis is stored, or the state is left as it was and the error reported. */
    method Process(state: ComplaintState, llm: Llm, now: Timestamp) returns (raised: Option<Raised>)
      modifies state
      ensures var raw := state.raw;
        var reply := Analyze(systemPrompt, UserPrompt(template, raw, old(state.anonymized)), llm);
        var o := Outcome(hasClient, reply, DisplayId(raw), CheckUrgencyKeywords(KeywordText(raw)), now);
        (o.Ok? ==> raised.None? && state.View() == old(state.View()).(analyzed := Some(o.value)))
        && (o.Err? ==> raised == Some(o.error) && state.View() == old(state.View()))
    {
      if !hasClient {
        return Some(Agent(AgentError(CLIENT_MISSING, ANALYST, false)));
      }
      var complaint := state.raw;
      var result := Analyze(systemPrompt, UserPrompt(template, complaint, state.anonymized), llm);
      if result.Err? {
        return Some(Agent(AgentError(ANALYSIS_FAILED + result.error, ANALYST, true)));
      }
      var analysis := ParseLlmResponse(DisplayId(complaint), result.value, now);
      var keywordUrgency := CheckUrgencyKeywords(KeywordText(complaint));
      analysis := analysis.(urgency := Ratchet(analysis.urgency, keywordUrgency));
      state.analyzed := Some(analysis);
      return None;
    }

    /** `StatefulAgent.execute` for the analyst. */
    method Execute(state: ComplaintState, clientFailure: Option<string>, llm: Llm, now: Timestamp)
      requires Valid()
      modifies this, base, state
      ensures var init := if old(base.initialized) || clientFailure.None? then None else Some(Other(clientFailure.value));
        var client := old(hasClient) || (!old(base.initialized) && clientFailure.None?);
        var raw := state.raw;
        var reply := Analyze(systemPrompt, UserPrompt(template, raw, old(state.anonymized)), llm);
        var o := Outcome(client, reply, DisplayId(raw), CheckUrgencyKeywords(KeywordText(raw)), now);
        var proceed := init.None? && ValidInput(state.raw);
        var entry := EnvelopeEntry(ANALYST, old(base.initialized), init, ValidInput(state.raw),
          if o.Err? then Some(o.error) else None);
        var processed := if proceed && o.Ok? then old(state.View()).(analyzed := Some(o.value)) else old(state.View());
        state.View() == Concluded(processed, entry, Analyzed, FailedLlm)
      ensures base.initialized == (old(base.initialized) || clientFailure.None?)
    {
      var init: Option<Raised> := None;
      if !base.initialized {
        init := Initialize(clientFailure);
      }
      var proceed := base.Enter(state, init, ValidInput(state.raw));
      if proceed {
        var raised := Process(state, llm, now);
        base.Exit(state, raised);
      }
    }
  }
}
