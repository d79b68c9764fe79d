/**
 * The router stage: it resolves the analysed category to a team (the exact
 * key of the category map, else the first related key in insertion order,
 * else a fallback team), asking a semantic search first when one is
 * configured, and records the routing decision with its priority, SLA and
 * justification.
 */
module Router {
  import opened Wrappers
  import opened Text
  import opened Schemas
  import opened Base
  import opened Prompts
  import opened OrderedDict
  import Analyst

  const ROUTER := "router"
  const NO_TEAM := "No team found for category "

  // -----------------------------------------------------------------------
  // The category map.

  /** Some category of `cats`, lowercased, is `k`. */
  predicate Lists(cats: seq<string>, k: string) {
    exists c :: c in cats && Lower(c) == k
  }

  /** `category_to_team[c.lower()] = team` for each category `c` of `cats`, in order. */
  function PutTeam(d: Dict<string, TeamInfo>, cats: seq<string>, team: TeamInfo): (r: Dict<string, TeamInfo>)
    requires Valid(d)
    ensures Valid(r)
    ensures forall k :: k in r.values <==> k in d.values || Lists(cats, k)
    ensures forall k :: Lists(cats, k) ==> r.values[k] == team
    ensures forall k :: k in d.values && !Lists(cats, k) ==> r.values[k] == d.values[k]
    ensures (forall c :: c in cats ==> Lower(c) in d.values) ==> r.keys == d.keys
    decreases |cats|
  {
    if cats == [] then d
    else
      var init := cats[..|cats| - 1];
      assert cats == init + [cats[|cats| - 1]];
      Put(PutTeam(d, init, team), Lower(cats[|cats| - 1]), team)
  }

  /** The map `initialize` leaves after walking `teams` over the map `d`. */
  function BuildOnto(d: Dict<string, TeamInfo>, teams: seq<TeamInfo>): (r: Dict<string, TeamInfo>)
    requires Valid(d)
    ensures Valid(r)
    decreases |teams|
  {
    if teams == [] then d
    else
      var last := teams[|teams| - 1];
      PutTeam(BuildOnto(d, teams[..|teams| - 1]), last.categories, last)
  }

  /** The index of the last team listing `k` among its lowercased categories. */
  function LastOwner(teams: seq<TeamInfo>, k: string): (r: Option<nat>)
    ensures r.None? <==> forall j :: 0 <= j < |teams| ==> !Lists(teams[j].categories, k)
    ensures r.Some? ==> r.value < |teams| && Lists(teams[r.value].categories, k)
    ensures r.Some? ==> forall j :: r.value < j < |teams| ==> !Lists(teams[j].categories, k)
    decreases |teams|
  {
    if teams == [] then None
    else if Lists(teams[|teams| - 1].categories, k) then Some(|teams| - 1)
    else LastOwner(teams[..|teams| - 1], k)
  }

  /**
   * The built map holds `k` exactly when `d` did or some team lists it, and
   * then maps it to the last team that lists it: a later team overwrites an
   * earlier one.
   */
  lemma {:induction false} BuildValues(d: Dict<string, TeamInfo>, teams: seq<TeamInfo>, k: string)
    requires Valid(d)
    ensures k in BuildOnto(d, teams).values <==> k in d.values || LastOwner(teams, k).Some?
    ensures LastOwner(teams, k).Some? ==> BuildOnto(d, teams).values[k] == teams[LastOwner(teams, k).value]
    ensures LastOwner(teams, k).None? && k in d.values ==> BuildOnto(d, teams).values[k] == d.values[k]
    decreases |teams|
  {
    if teams != [] {
      BuildValues(d, teams[..|teams| - 1], k);
    }
  }

  /** When every listed category is already a key, building keeps the key order. */
  lemma {:induction false} BuildKeysKept(d: Dict<string, TeamInfo>, teams: seq<TeamInfo>)
    requires Valid(d)
    requires forall j, c :: 0 <= j < |teams| && c in teams[j].categories ==> Lower(c) in d.values
    ensures BuildOnto(d, teams).keys == d.keys
    decreases |teams|
  {
    if teams != [] {
      var init := teams[..|teams| - 1];
      var last := teams[|teams| - 1];
      BuildKeysKept(d, init);
      forall c | c in last.categories
        ensures Lower(c) in BuildOnto(d, init).values
      {
        BuildValues(d, init, Lower(c));
      }
    }
  }

  /** Rebuilding from the same team list yields the same map. */
  lemma BuildIdempotent(d: Dict<string, TeamInfo>, teams: seq<TeamInfo>)
    requires Valid(d)
    ensures BuildOnto(BuildOnto(d, teams), teams) == BuildOnto(d, teams)
  {
    var once := BuildOnto(d, teams);
    var twice := BuildOnto(once, teams);
    forall j, c | 0 <= j < |teams| && c in teams[j].categories
      ensures Lower(c) in once.values
    {
      assert Lists(teams[j].categories, Lower(c));
      BuildValues(d, teams, Lower(c));
    }
    BuildKeysKept(once, teams);
    forall k
      ensures k in twice.values <==> k in once.values
      ensures k in once.values ==> twice.values[k] == once.values[k]
    {
      BuildValues(d, teams, k);
      BuildValues(once, teams, k);
    }
    assert twice.values == once.values;
  }

  /** Of two teams listing the same category, the later one is kept. */
  lemma LaterTeamWins(a: TeamInfo, b: TeamInfo, k: string)
    requires Lists(a.categories, k) && Lists(b.categories, k)
    ensures BuildOnto(Empty(), [a, b]).values[k] == b
  {
    BuildValues(Empty(), [a, b], k);
  }

  /** Every team the map built from `teams` hands out is one of `teams`. */
  lemma BuiltValuesAreTeams(teams: seq<TeamInfo>, k: string)
    requires k in BuildOnto(Empty(), teams).values
    ensures BuildOnto(Empty(), teams).values[k] in teams
  {
    BuildValues(Empty(), teams, k);
  }

  // -----------------------------------------------------------------------
  // Resolving a team.

  /** The index of the first key related to `c` either way. */
  function FirstRelatedKey(keys: seq<string>, c: string): (r: Option<nat>)
    ensures r.None? <==> forall i :: 0 <= i < |keys| ==> !Analyst.Related(keys[i], c)
    ensures r.Some? ==> r.value < |keys| && Analyst.Related(keys[r.value], c)
    ensures r.Some? ==> forall i :: 0 <= i < r.value ==> !Analyst.Related(keys[i], c)
  {
    if keys == [] then None
    else if Analyst.Related(keys[0], c) then Some(0)
    else
      var rest := FirstRelatedKey(keys[1..], c);
      if rest.Some? then Some(rest.value + 1) else None
  }

  /** A team to fall back on: its lowercased name mentions "atendimento" or "n2". */
  predicate IsFallback(t: TeamInfo) {
    Contains(Lower(t.name), "atendimento") || Contains(Lower(t.name), "n2")
  }

  /** The index of the first fallback team. */
  function FirstFallback(teams: seq<TeamInfo>): (r: Option<nat>)
    ensures r.None? <==> forall i :: 0 <= i < |teams| ==> !IsFallback(teams[i])
    ensures r.Some? ==> r.value < |teams| && IsFallback(teams[r.value])
    ensures r.Some? ==> forall i :: 0 <= i < r.value ==> !IsFallback(teams[i])
  {
    if teams == [] then None
    else if IsFallback(teams[0]) then Some(0)
    else
      var rest := FirstFallback(teams[1..]);
      if rest.Some? then Some(rest.value + 1) else None
  }

  /**
   * `_route_with_mapping` for the lowercased category `c`: the exact key,
   * else the first related key, else the first fallback team, else the
   * first team, else none.
   */
  function MappedTeam(d: Dict<string, TeamInfo>, teams: seq<TeamInfo>, c: string): (r: Option<TeamInfo>)
    requires Valid(d)
    ensures r.None? <==> c !in d.values && FirstRelatedKey(d.keys, c).None? && teams == []
    ensures r.Some? ==> r.value in d.values.Values || r.value in teams
  {
    if c in d.values then Some(d.values[c])
    else match FirstRelatedKey(d.keys, c)
      case Some(i) => Some(d.values[d.keys[i]])
      case None =>
        match FirstFallback(teams)
        case Some(i) => Some(teams[i])
        case None => if teams == [] then None else Some(teams[0])
  }

  /**
   * On the map built from `teams`, mapping finds no team only when there
   * are no teams, and every team it finds is one of them.
   */
  lemma MappedTeamKnown(teams: seq<TeamInfo>, c: string)
    ensures MappedTeam(BuildOnto(Empty(), teams), teams, c).None? <==> teams == []
    ensures MappedTeam(BuildOnto(Empty(), teams), teams, c).Some? ==>
      MappedTeam(BuildOnto(Empty(), teams), teams, c).value in teams
  {
    var d := BuildOnto(Empty(), teams);
    if c in d.values {
      BuiltValuesAreTeams(teams, c);
    } else {
      var i := FirstRelatedKey(d.keys, c);
      if i.Some? {
        BuiltValuesAreTeams(teams, d.keys[i.value]);
      } else if teams == [] {
        assert d == Empty<string, TeamInfo>();
      }
    }
  }

  /** A category some team lists goes to the last team that lists it. */
  lemma MappedExact(teams: seq<TeamInfo>, c: string)
    requires LastOwner(teams, c).Some?
    ensures MappedTeam(BuildOnto(Empty(), teams), teams, c) == Some(teams[LastOwner(teams, c).value])
  {
    BuildValues(Empty(), teams, c);
  }

  /** A semantic team search: from the query and the category, the teams found (best first), or the failure. */
  type Search = (string, string) -> Result<seq<TeamInfo>, string>

  /** The query `_route_with_rag` sends: the routing context of the analysis. */
  function SearchQuery(a: ComplaintAnalyzed): (q: string)
    ensures q == RoutingContext(CategoryValue(a.category), UrgencyValue(a.urgency), a.summary)
  {
    RoutingContext(CategoryValue(a.category), UrgencyValue(a.urgency), a.summary)
  }

  /** The team the router resolves: the first search hit in search mode, else (and on an empty or failed search) the mapped team. */
  function ResolvedTeam(rag: bool, d: Dict<string, TeamInfo>, teams: seq<TeamInfo>, a: ComplaintAnalyzed,
                        search: Search): (r: Option<TeamInfo>)
    requires Valid(d)
    ensures MappedTeam(d, teams, Lower(CategoryValue(a.category))).Some? ==> r.Some?
    ensures r != MappedTeam(d, teams, Lower(CategoryValue(a.category))) ==>
      rag && search(SearchQuery(a), CategoryValue(a.category)).Ok?
      && search(SearchQuery(a), CategoryValue(a.category)).value != []
      && r == Some(search(SearchQuery(a), CategoryValue(a.category)).value[0])
  {
    var mapped := MappedTeam(d, teams, Lower(CategoryValue(a.category)));
    if !rag then mapped
    else
      var found := search(SearchQuery(a), CategoryValue(a.category));
      if found.Ok? && found.value != [] then Some(found.value[0]) else mapped
  }

  // -----------------------------------------------------------------------
  // Priority, SLA and justification.

  /** `_determine_priority`: the urgency's level, one higher for a very dissatisfied customer. */
  function DeterminePriority(u: Urgency, sentiment: string): (r: Priority)
    ensures Analyst.Rank(u) <= PriorityRank(r) <= Analyst.Rank(u) + 1
  {
    match u
    case Critica => Critical
    case Alta => if sentiment == "muito_insatisfeito" then Critical else High
    case Media => if sentiment == "muito_insatisfeito" then High else Medium
    case Baixa => if sentiment == "muito_insatisfeito" then Medium else Low
  }

  function PriorityRank(p: Priority): nat {
    match p
    case Low => 0
    case Medium => 1
    case High => 2
    case Critical => 3
  }

  /**
   * The priority level is the urgency's rank, raised by exactly one for
   * "muito_insatisfeito" and capped at critical.
   */
  lemma PriorityIsRaisedRank(u: Urgency, sentiment: string)
    ensures var raised := Analyst.Rank(u) + if sentiment == "muito_insatisfeito" then 1 else 0;
      PriorityRank(DeterminePriority(u, sentiment)) == if raised > 3 then 3 else raised
    ensures u == Critica ==> DeterminePriority(u, sentiment) == Critical
    ensures u == Baixa && sentiment != "muito_insatisfeito" ==> DeterminePriority(u, sentiment) == Low
  {
  }

  const DEFAULT_SLA_HOURS := 48

  /** `_get_sla_hours`: the team's SLA for the urgency (an unknown urgency counts as media), 48 when the team has none. */
  function SlaHours(team: TeamInfo, urgency: string): (h: int)
    ensures urgency in {"baixa", "media", "alta", "critica"} && urgency in team.slaHours ==> h == team.slaHours[urgency]
    ensures urgency in {"baixa", "media", "alta", "critica"} && urgency !in team.slaHours ==> h == DEFAULT_SLA_HOURS
    ensures urgency !in {"baixa", "media", "alta", "critica"} ==>
      h == if "media" in team.slaHours then team.slaHours["media"] else DEFAULT_SLA_HOURS
  {
    var key := if urgency in {"baixa", "media", "alta", "critica"} then urgency else "media";
    if key in team.slaHours then team.slaHours[key] else DEFAULT_SLA_HOURS
  }

  /** The responsibilities a justification cites: the first three. */
  function Cited(responsibilities: seq<string>): (r: seq<string>)
    ensures |r| <= 3 && |r| <= |responsibilities| && r == responsibilities[..|r|]
    ensures |responsibilities| >= 3 ==> |r| == 3
  {
    if |responsibilities| <= 3 then responsibilities else responsibilities[..3]
  }

  const JUSTIFICATION_HEAD := "Reclama\U{E7}\U{E3}o classificada como '"
  const JUSTIFICATION_TAIL := "' \U{E9} respons\U{E1}vel por esta categoria e possui expertise em: "

  /** `_generate_justification`. */
  function Justification(a: ComplaintAnalyzed, team: TeamInfo): (r: string)
    ensures StartsWith(r, JUSTIFICATION_HEAD + CategoryValue(a.category))
    ensures EndsWith(r, Join(Cited(team.responsibilities), ", ") + ".")
  {
    JUSTIFICATION_HEAD + (CategoryValue(a.category) + ("' com urg\U{EA}ncia '" + (UrgencyValue(a.urgency)
      + ("'. Time '" + (team.name + (JUSTIFICATION_TAIL + (Join(Cited(team.responsibilities), ", ") + ".")))))))
  }

  /** Responsibilities after the third never reach the justification. */
  lemma JustificationIgnoresRest(a: ComplaintAnalyzed, team: TeamInfo, more: seq<string>)
    requires |team.responsibilities| >= 3
    ensures Justification(a, team.(responsibilities := team.responsibilities + more)) == Justification(a, team)
  {
    assert (team.responsibilities + more)[..3] == team.responsibilities[..3];
  }

  /**
   * What `process` produces from the resolved team: the routing decision,
   * or the non-recoverable error it raises when no team was found.
   */
  function Decision(team: Option<TeamInfo>, a: ComplaintAnalyzed, complaintId: string, now: Timestamp)
    : (r: Result<RoutingDecision, Raised>)
    ensures team.None? <==> r.Err?
    ensures team.None? ==> r.error == Agent(AgentError(NO_TEAM + CategoryValue(a.category), ROUTER, false))
    ensures team.Some? ==>
      r.value.team == team.value.name && r.value.teamId == team.value.id
      && r.value.responsibleEmail == team.value.email && r.value.complaintId == complaintId
    ensures team.Some? ==>
      r.value.priority == DeterminePriority(a.urgency, SentimentValue(a.sentiment))
      && r.value.slaHours == SlaHours(team.value, UrgencyValue(a.urgency))
      && r.value.justification == Justification(a, team.value) && r.value.routedAt == now
  {
    match team
    case None => Err(Agent(AgentError(NO_TEAM + CategoryValue(a.category), ROUTER, false)))
    case Some(t) =>
      Ok(RoutingDecision(complaintId, t.name, t.id, t.email, DeterminePriority(a.urgency, SentimentValue(a.sentiment)),
        Justification(a, t), SlaHours(t, UrgencyValue(a.urgency)), now))
  }

  /** `validate_input`: there is an analysis to route. */
  predicate ValidInput(analyzed: Option<ComplaintAnalyzed>) {
    analyzed.Some?
  }

  /**
   * The router: the envelope, whether search mode is on and a search client
   * exists, the loaded teams and the category map.
   */
  class RouterAgent {
    const base: StatefulAgent
    var useAzureSearch: bool
    var hasSearchClient: bool
    var teams: seq<TeamInfo>
    var categoryToTeam: Dict<string, TeamInfo>

    /** The envelope carries the router's name and statuses, and the map is a well-formed dict. */
    predicate Valid()
      reads this
    {
      base.name == ROUTER && base.successStatus == Routed && base.failureStatus == FailedRouting
      && OrderedDict.Valid(categoryToTeam)
    }

    constructor (useAzureSearch: bool)
      ensures Valid() && fresh(base) && !base.initialized
      ensures this.useAzureSearch == useAzureSearch && !hasSearchClient
      ensures teams == [] && categoryToTeam == Empty()
    {
      base := new StatefulAgent(ROUTER, Routed, FailedRouting);
      this.useAzureSearch := useAzureSearch;
      hasSearchClient := false;
      teams := [];
      categoryToTeam := Empty();
    }

    /**
     * `initialize`: load the teams and add their categories to the map;
     * `loaded` is what the loader returned or raised, `searchFailure` what
     * creating the search client raised, if anything. A failed search
     * client turns search mode off.
     */
    method Initialize(loaded: Result<seq<TeamInfo>, string>, searchFailure: Option<string>) returns (raised: Option<Raised>)
      requires Valid()
      modifies this
      ensures Valid()
      ensures loaded.Err? ==>
        raised == Some(Other(loaded.error)) && teams == old(teams)
        && categoryToTeam == old(categoryToTeam) && useAzureSearch == old(useAzureSearch)
        && hasSearchClient == old(hasSearchClient)
      ensures loaded.Ok? ==>
        raised.None? && teams == loaded.value
        && categoryToTeam == BuildOnto(old(categoryToTeam), loaded.value)
      ensures loaded.Ok? ==>
        useAzureSearch == (old(useAzureSearch) && searchFailure.None?)
        && hasSearchClient == (old(hasSearchClient) || (old(useAzureSearch) && searchFailure.None?))
    {
      if loaded.Err? {
        return Some(Other(loaded.error));
      }
      teams := loaded.value;
      categoryToTeam := AddTeams(categoryToTeam, teams);
      if useAzureSearch {
        if searchFailure.None? {
          hasSearchClient := true;
        } else {
          useAzureSearch := false;
        }
      }
      return None;
    }

    /** The loops of `initialize`: every team's categories, lowercased, mapped to it, team after team. */
    static method AddTeams(d: Dict<string, TeamInfo>, ts: seq<TeamInfo>) returns (r: Dict<string, TeamInfo>)
      requires OrderedDict.Valid(d)
      ensures r == BuildOnto(d, ts)
    {
      r := d;
      var i := 0;
      while i < |ts|
        invariant 0 <= i <= |ts| && OrderedDict.Valid(r)
        invariant r == BuildOnto(d, ts[..i])
      {
        r := AddTeam(r, ts[i]);
        assert ts[..i + 1][..i] == ts[..i];
        i := i + 1;
      }
      assert ts[..i] == ts;
    }

    /** The inner loop of `initialize`: one team's categories, lowercased, mapped to it. */
    static method AddTeam(d: Dict<string, TeamInfo>, team: TeamInfo) returns (r: Dict<string, TeamInfo>)
      requires OrderedDict.Valid(d)
      ensures r == PutTeam(d, team.categories, team)
    {
      r := d;
      var j := 0;
      while j < |team.categories|
        invariant 0 <= j <= |team.categories| && OrderedDict.Valid(r)
        invariant r == PutTeam(d, team.categories[..j], team)
      {
        assert team.categories[..j + 1][..j] == team.categories[..j];
        r := Put(r, Lower(team.categories[j]), team);
        j := j + 1;
      }
      assert team.categories[..j] == team.categories;
    }

    /** `_route_with_mapping` for the category's display text. */
    method RouteWithMapping(category: string) returns (team: Option<TeamInfo>)
      requires Valid()
      ensures team == MappedTeam(categoryToTeam, teams, Lower(category))
    {
      var c := Lower(category);
      if c in categoryToTeam.values {
        return Some(categoryToTeam.values[c]);
      }
      var keys := categoryToTeam.keys;
      var i := 0;
      while i < |keys|
        invariant 0 <= i <= |keys|
        invariant forall j :: 0 <= j < i ==> !Analyst.Related(keys[j], c)
      {
        if Analyst.Related(keys[i], c) {
          return Some(categoryToTeam.values[keys[i]]);
        }
        i := i + 1;
      }
      i := 0;
      while i < |teams|
        invariant 0 <= i <= |teams|
        invariant forall j :: 0 <= j < i ==> !IsFallback(teams[j])
      {
        if IsFallback(teams[i]) {
          return Some(teams[i]);
        }
        i := i + 1;
      }
      if teams == [] {
        return None;
      }
      return Some(teams[0]);
    }

    /** `_route_with_rag`: the first search hit; an empty or failed search falls back to the mapping. */
    method RouteWithRag(a: ComplaintAnalyzed, search: Search) returns (team: Option<TeamInfo>)
      requires Valid()
      ensures var found := search(SearchQuery(a), CategoryValue(a.category));
        found.Ok? && found.value != [] ==> team == Some(found.value[0])
      ensures var found := search(SearchQuery(a), CategoryValue(a.category));
        found.Err? || found.value == [] ==> team == MappedTeam(categoryToTeam, teams, Lower(CategoryValue(a.category)))
    {
      var found := search(SearchQuery(a), CategoryValue(a.category));
      if found.Ok? && found.value != [] {
        return Some(found.value[0]);
      }
      team := RouteWithMapping(CategoryValue(a.category));
    }

    /** `process`: the routing decision is stored, or the state is left as it was and the error reported. */
    method Process(state: ComplaintState, search: Search, now: Timestamp) returns (raised: Option<Raised>)
      requires Valid() && state.analyzed.Some?
      modifies state
      ensures var a := old(state.analyzed).value;
        var o := Decision(ResolvedTeam(useAzureSearch && hasSearchClient, categoryToTeam, teams, a, search), a,
          DisplayId(state.raw), now);
        (o.Ok? ==> raised.None? && state.View() == old(state.View()).(routing := Some(o.value)))
        && (o.Err? ==> raised == Some(o.error) && state.View() == old(state.View()))
    {
      var a := state.analyzed.value;
      var team;
      if useAzureSearch && hasSearchClient {
        team := RouteWithRag(a, search);
      } else {
        team := RouteWithMapping(CategoryValue(a.category));
      }
      var o := Decision(team, a, DisplayId(state.raw), now);
      if o.Err? {
        return Some(o.error);
      }
      state.routing := Some(o.value);
      return None;
    }

    /** `StatefulAgent.execute` for the router. */
    method Execute(state: ComplaintState, loaded: Result<seq<TeamInfo>, string>, searchFailure: Option<string>,
                   search: Search, now: Timestamp)
      requires Valid()
      modifies this, base, state
      ensures Valid()
      ensures base.initialized == (old(base.initialized) || loaded.Ok?)
      ensures !old(base.initialized) && loaded.Ok? ==>
        teams == loaded.value
        && categoryToTeam == BuildOnto(old(categoryToTeam), loaded.value)
        && useAzureSearch == (old(useAzureSearch) && searchFailure.None?)
        && hasSearchClient == (old(hasSearchClient) || (old(useAzureSearch) && searchFailure.None?))
      ensures old(base.initialized) || loaded.Err? ==>
        teams == old(teams) && categoryToTeam == old(categoryToTeam)
        && useAzureSearch == old(useAzureSearch) && hasSearchClient == old(hasSearchClient)
      ensures var init := if old(base.initialized) || loaded.Ok? then None else Some(Other(loaded.error));
        old(state.analyzed).None? ==>
          state.View() == Concluded(old(state.View()), EnvelopeEntry(ROUTER, old(base.initialized), init, false, None),
            Routed, FailedRouting)
      ensures var init := if old(base.initialized) || loaded.Ok? then None else Some(Other(loaded.error));
        old(state.analyzed).Some? ==>
          var a := old(state.analyzed).value;
          var o := Decision(ResolvedTeam(useAzureSearch && hasSearchClient, categoryToTeam, teams, a, search), a,
            DisplayId(state.raw), now);
          var entry := EnvelopeEntry(ROUTER, old(base.initialized), init, true, if o.Err? then Some(o.error) else None);
          var processed := if init.None? && o.Ok? then old(state.View()).(routing := Some(o.value)) else old(state.View());
          state.View() == Concluded(processed, entry, Routed, FailedRouting)
    {
      var init: Option<Raised> := None;
      if !base.initialized {
        init := Initialize(loaded, searchFailure);
      }
      var proceed := base.Enter(state, init, ValidInput(state.analyzed));
      if proceed {
        var raised := Process(state, search, now);
        base.Exit(state, raised);
      }
    }

    /** `get_available_teams`: the team names, in order. */
    function AvailableTeams(): (names: seq<string>)
      reads this
      ensures |names| == |teams| && forall i :: 0 <= i < |teams| ==> names[i] == teams[i].name
    {
      var ts := teams;
      seq(|ts|, i requires 0 <= i < |ts| => ts[i].name)
    }

    /** `get_team_by_id`: the first team with that id, or none. */
    method GetTeamById(teamId: string) returns (team: Option<TeamInfo>)
      ensures team.None? <==> forall i :: 0 <= i < |teams| ==> teams[i].id != teamId
      ensures team.Some? ==> team.value.id == teamId
      ensures team.Some? ==>
        exists i :: 0 <= i < |teams| && teams[i] == team.value && forall j :: 0 <= j < i ==> teams[j].id != teamId
    {
      var i := 0;
      while i < |teams|
        invariant 0 <= i <= |teams|
        invariant forall j :: 0 <= j < i ==> teams[j].id != teamId
      {
        if teams[i].id == teamId {
          return Some(teams[i]);
        }
        i := i + 1;
      }
      return None;
    }
  }
}
