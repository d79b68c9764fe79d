/**
 * The Jira simulator. Every client shares one ticket table and one counter
 * (class attributes in the original); creating a ticket bumps the counter
 * and files the ticket under `{project}-{counter}`.
 */
module MockJira {
  import opened Wrappers
  import opened Text
  import opened Schemas
  import opened OrderedDict

  const INITIAL_COUNTER: nat := 1000
  const DEFAULT_PROJECT := "SUPORTE"
  const BROWSE_URL := "https://jira.technova.com/browse/"
  const OPEN := "Open"

  /** `f"{project_key}-{counter}"`. */
  function TicketKey(projectKey: string, n: nat): string
  {
    projectKey + ("-" + NatToString(n))
  }

  /** The ticket `create_ticket` files when the counter reaches `n`: open, at its browse link. */
  function NewTicket(projectKey: string, n: nat, complaintId: string, now: Timestamp): (r: TicketInfo)
    ensures r.jiraId == NatToString(n) && r.jiraKey == projectKey + ("-" + r.jiraId)
    ensures r.jiraLink == BROWSE_URL + r.jiraKey && r.complaintId == complaintId && r.status == OPEN
  {
    var key := TicketKey(projectKey, n);
    TicketInfo(complaintId, NatToString(n), key, BROWSE_URL + key, OPEN, now)
  }

  /** A decimal numeral holds no dash. */
  lemma NoDashInNumeral(s: string)
    requires forall i :: 0 <= i < |s| ==> IsDigit(s[i])
    ensures '-' !in s
  {
  }

  /** The text after the last dash of a key is its number. */
  lemma NumeralAfterDash(key: string, a: string, p: string, n: nat)
    requires forall i :: 0 <= i < |a| ==> IsDigit(a[i])
    requires EndsWith(key, "-" + a) && key == TicketKey(p, n)
    ensures a == NatToString(n)
  {
    var u := key[..|key| - |a| - 1];
    assert key == u + (['-'] + a);
    NoDashInNumeral(a);
    NoDashInNumeral(NatToString(n));
    SplitAtLast('-', u, a, p, NatToString(n));
  }

  /** Different counters give different keys, whatever the project keys. */
  lemma KeysDistinct(p: string, q: string, m: nat, n: nat)
    requires m != n
    ensures TicketKey(p, m) != TicketKey(q, n)
  {
    if TicketKey(p, m) == TicketKey(q, n) {
      NumeralAfterDash(TicketKey(p, m), NatToString(m), q, n);
      NatToStringInjective(m, n);
    }
  }

  /** After `clear_tickets` the next key ends in -1001. */
  lemma FirstKeyAfterClear(p: string)
    ensures TicketKey(p, INITIAL_COUNTER + 1) == p + "-1001"
  {
    assert NatToString(1) == "1";
    assert NatToString(10) == "10";
    assert NatToString(100) == "100";
    assert NatToString(1001) == "1001";
  }

  /**
   * A ticket filed under `key` as `create_ticket` files it: `key` is its
   * key and ends in a dash and its id, a numeral no greater than `counter`.
   */
  predicate WellKeyed(key: string, t: TicketInfo, counter: nat) {
    t.jiraKey == key && (forall i :: 0 <= i < |t.jiraId| ==> IsDigit(t.jiraId[i]))
    && DigitsValue(t.jiraId) <= counter && EndsWith(key, "-" + t.jiraId)
  }

  /** The next key is not in use: every filed ticket's number is at most the counter. */
  lemma FreshKey(tickets: map<string, TicketInfo>, counter: nat, p: string, n: nat)
    requires forall k :: k in tickets ==> WellKeyed(k, tickets[k], counter)
    requires n > counter
    ensures TicketKey(p, n) !in tickets
  {
    var key := TicketKey(p, n);
    if key in tickets {
      NumeralAfterDash(key, tickets[key].jiraId, p, n);
      NatToStringValue(n);
      assert false;
    }
  }

  /** The ticket `create_ticket` files under counter `n` is well keyed. */
  lemma NewTicketWellKeyed(p: string, n: nat, t: TicketInfo)
    requires t.jiraKey == TicketKey(p, n) && t.jiraId == NatToString(n)
    ensures WellKeyed(t.jiraKey, t, n)
  {
    NatToStringValue(n);
    assert t.jiraKey == p + ("-" + t.jiraId);
  }

  /** `after` is `before` with `t` filed last under its key. */
  predicate Filed(before: Dict<string, TicketInfo>, after: Dict<string, TicketInfo>, t: TicketInfo) {
    after.keys == before.keys + [t.jiraKey] && after.values == before.values[t.jiraKey := t]
  }

  /** `_priority_to_jira`. */
  function PriorityToJira(p: Priority): string {
    match p
    case Low => "Low"
    case Medium => "Medium"
    case High => "High"
    case Critical => "Highest"
  }

  /** Distinct priorities have distinct Jira names. */
  lemma PriorityToJiraInjective(p: Priority, q: Priority)
    ensures PriorityToJira(p) == PriorityToJira(q) ==> p == q
  {
    if PriorityToJira(p) == PriorityToJira(q) {
      assert PriorityToJira(p)[|PriorityToJira(p)| - 1] == PriorityToJira(q)[|PriorityToJira(q)| - 1];
      assert |PriorityToJira(p)| == |PriorityToJira(q)|;
    }
  }

  /** The tickets of `ts` with status `status`, in order. */
  function WithStatus(ts: seq<TicketInfo>, status: string): (r: seq<TicketInfo>)
    ensures forall t :: t in r <==> t in ts && t.status == status
    ensures |r| <= |ts|
  {
    if ts == [] then []
    else (if ts[0].status == status then [ts[0]] else []) + WithStatus(ts[1..], status)
  }

  /** The statuses of `ts`, in order. */
  function Statuses(ts: seq<TicketInfo>): (r: seq<string>)
    ensures |r| == |ts| && forall i :: 0 <= i < |ts| ==> r[i] == ts[i].status
  {
    seq(|ts|, i requires 0 <= i < |ts| => ts[i].status)
  }

  /** The shared counter and ticket table. */
  class TicketTable {
    var counter: nat
    var tickets: Dict<string, TicketInfo>

    /** The counter never drops below 1000 and every filed ticket is well keyed. */
    predicate Valid()
      reads this
    {
      counter >= INITIAL_COUNTER && OrderedDict.Valid(tickets)
      && forall k {:trigger WellKeyed(k, tickets.values[k], counter)} :: k in tickets.values ==> WellKeyed(k, tickets.values[k], counter)
    }

    constructor ()
      ensures Valid() && counter == INITIAL_COUNTER && tickets == Empty()
    {
      counter := INITIAL_COUNTER;
      tickets := Empty();
    }

    /** `get_all_tickets`: the filed tickets in filing order. */
    function AllTickets(): (r: seq<TicketInfo>)
      requires Valid()
      reads this
      ensures |r| == |tickets.keys| && forall i :: 0 <= i < |r| ==> r[i] == tickets.values[tickets.keys[i]]
    {
      var t := tickets;
      seq(|t.keys|, i requires 0 <= i < |t.keys| && OrderedDict.Valid(t) => t.values[t.keys[i]])
    }
  }

  class MockJiraClient {
    const projectKey: string
    const table: TicketTable

    constructor (projectKey: string, table: TicketTable)
      ensures this.projectKey == projectKey && this.table == table
    {
      this.projectKey := projectKey;
      this.table := table;
    }

    /**
     * `create_ticket`: the counter goes up by one and a fresh ticket, open,
     * is filed under the new key; the key was not in use.
     */
    method CreateTicket(complaintId: string, now: Timestamp) returns (ticket: TicketInfo)
      requires table.Valid()
      modifies table
      ensures table.Valid() && table.counter == old(table.counter) + 1
      ensures ticket == NewTicket(projectKey, table.counter, complaintId, now)
      ensures ticket.jiraKey !in old(table.tickets.values)
      ensures Filed(old(table.tickets), table.tickets, ticket)
    {
      table.counter := table.counter + 1;
      var n := table.counter;
      ticket := NewTicket(projectKey, n, complaintId, now);
      var key := ticket.jiraKey;
      FreshKey(table.tickets.values, n - 1, projectKey, n);
      NewTicketWellKeyed(projectKey, n, ticket);
      table.tickets := Put(table.tickets, key, ticket);
    }

    /** `get_ticket`. */
    function GetTicket(key: string): (r: Option<TicketInfo>)
      reads table
      ensures r.Some? <==> key in table.tickets.values
      ensures r.Some? ==> r.value == table.tickets.values[key]
    {
      if key in table.tickets.values then Some(table.tickets.values[key]) else None
    }

    /** `update_ticket_status`: only the status of a filed ticket changes; an unknown key changes nothing. */
    method UpdateTicketStatus(key: string, status: string) returns (updated: bool)
      requires table.Valid()
      modifies table
      ensures table.Valid() && table.counter == old(table.counter)
      ensures updated == (key in old(table.tickets.values))
      ensures !updated ==> table.tickets == old(table.tickets)
      ensures updated ==>
        table.tickets.keys == old(table.tickets.keys)
        && table.tickets.values == old(table.tickets.values)[key := old(table.tickets.values)[key].(status := status)]
    {
      if key !in table.tickets.values {
        return false;
      }
      var t := table.tickets.values[key];
      ghost var before := table.tickets.values;
      table.tickets := Put(table.tickets, key, t.(status := status));
      forall k | k in table.tickets.values
        ensures WellKeyed(k, table.tickets.values[k], table.counter)
      {
        assert WellKeyed(k, before[k], table.counter);
      }
      return true;
    }

    /** `clear_tickets`: no ticket, and the counter back at 1000. */
    method ClearTickets()
      modifies table
      ensures table.Valid() && table.tickets == Empty() && table.counter == INITIAL_COUNTER
    {
      table.tickets := Empty();
      table.counter := INITIAL_COUNTER;
    }

    /** `get_tickets_by_status`: exactly the filed tickets with that status. */
    function TicketsByStatus(status: string): (r: seq<TicketInfo>)
      requires table.Valid()
      reads table
      ensures forall t :: t in r <==> t in table.AllTickets() && t.status == status
    {
      WithStatus(table.AllTickets(), status)
    }

    /** `get_stats`: the number of tickets, and how many hold each status; the counts add up to the total. */
    method GetStats() returns (total: nat, byStatus: Dict<string, nat>)
      requires table.Valid()
      ensures total == |table.tickets.keys|
      ensures byStatus == Histogram(Statuses(table.AllTickets()))
      ensures Sum(byStatus) == total
    {
      var statuses := Statuses(table.AllTickets());
      byStatus := Empty();
      var i := 0;
      while i < |statuses|
        invariant 0 <= i <= |statuses|
        invariant Valid(byStatus) && byStatus == Histogram(statuses[..i])
      {
        assert statuses[..i + 1][..i] == statuses[..i];
        byStatus := Bump(byStatus, statuses[i]);
        i := i + 1;
      }
      assert statuses[..i] == statuses;
      total := |table.tickets.keys|;
      HistogramSum(statuses);
    }
  }
}
