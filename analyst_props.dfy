/**
 * Properties of the analyst's parsers: each reads back the wire values of
 * its enumeration.
 */
module AnalystProps {
  import opened Wrappers
  import opened Text
  import opened Schemas
  import opened Analyst

  /** A string already lowercase and stripped normalises to itself. */
  lemma NormalizeKeeps(s: string)
    requires s == [] || (!IsSpace(s[0]) && !IsSpace(s[|s| - 1]))
    requires forall i :: 0 <= i < |s| ==> LowerChar(s[i]) == s[i]
    ensures Normalize(s) == s
  {
    LowerKeeps(s);
    StripKeeps(s);
  }

  /** The lookup finds the first entry holding the key. */
  lemma {:induction false} LookupAt<V>(entries: seq<(string, V)>, key: string, i: nat)
    requires i < |entries| && entries[i].0 == key
    requires forall j :: 0 <= j < i ==> entries[j].0 != key
    ensures Lookup(entries, key) == Some(entries[i].1)
  {
    if i > 0 {
      LookupAt(entries[1..], key, i - 1);
    }
  }

  lemma SentimentAt(x: string, i: nat)
    requires i < |SENTIMENT_MAPPINGS| && x == SENTIMENT_MAPPINGS[i].0
    requires forall j :: 0 <= j < i ==> SENTIMENT_MAPPINGS[j].0 != x
    requires Normalize(x) == x
    ensures ParseSentiment(x) == SENTIMENT_MAPPINGS[i].1
  {
    LookupAt(SENTIMENT_MAPPINGS, x, i);
  }

  /** The entry of the sentiment table holding a sentiment's wire value. */
  function SentimentEntry(s: Sentiment): (i: nat)
    ensures i < |SENTIMENT_MAPPINGS| && SENTIMENT_MAPPINGS[i].0 == SentimentValue(s)
    ensures SENTIMENT_MAPPINGS[i].1 == s
    ensures forall j :: 0 <= j < i ==> SENTIMENT_MAPPINGS[j].0 != SentimentValue(s)
  {
    match s
    case Neutro => 0
    case Insatisfeito => 1
    case MuitoInsatisfeito => 2
  }

  lemma SentimentKeysNormal()
    ensures forall i :: 0 <= i < |SENTIMENT_MAPPINGS| ==> Normalize(SENTIMENT_MAPPINGS[i].0) == SENTIMENT_MAPPINGS[i].0
  {
    forall i | 0 <= i < |SENTIMENT_MAPPINGS|
      ensures Normalize(SENTIMENT_MAPPINGS[i].0) == SENTIMENT_MAPPINGS[i].0
    {
      NormalizeKeeps(SENTIMENT_MAPPINGS[i].0);
    }
  }

  /** Every sentiment's wire value parses back to that sentiment. */
  lemma SentimentRoundTrip(s: Sentiment)
    ensures ParseSentiment(SentimentValue(s)) == s
  {
    SentimentKeysNormal();
    SentimentAt(SentimentValue(s), SentimentEntry(s));
  }

  lemma UrgencyAt(x: string, i: nat)
    requires i < |URGENCY_MAPPINGS| && x == URGENCY_MAPPINGS[i].0
    requires forall j :: 0 <= j < i ==> URGENCY_MAPPINGS[j].0 != x
    requires Normalize(x) == x
    ensures ParseUrgency(x) == URGENCY_MAPPINGS[i].1
  {
    LookupAt(URGENCY_MAPPINGS, x, i);
  }

  /** The entry of the urgency table holding an urgency's wire value. */
  function UrgencyEntry(u: Urgency): (i: nat)
    ensures i < |URGENCY_MAPPINGS| && URGENCY_MAPPINGS[i].0 == UrgencyValue(u)
    ensures URGENCY_MAPPINGS[i].1 == u
    ensures forall j :: 0 <= j < i ==> URGENCY_MAPPINGS[j].0 != UrgencyValue(u)
  {
    match u
    case Baixa => 0
    case Media => 1
    case Alta => 3
    case Critica => 4
  }

  lemma UrgencyKeysNormal()
    ensures forall i :: 0 <= i < |URGENCY_MAPPINGS| ==> Normalize(URGENCY_MAPPINGS[i].0) == URGENCY_MAPPINGS[i].0
  {
    forall i | 0 <= i < |URGENCY_MAPPINGS|
      ensures Normalize(URGENCY_MAPPINGS[i].0) == URGENCY_MAPPINGS[i].0
    {
      NormalizeKeeps(URGENCY_MAPPINGS[i].0);
    }
  }

  /** Every urgency's wire value parses back to that urgency. */
  lemma UrgencyRoundTrip(u: Urgency)
    ensures ParseUrgency(UrgencyValue(u)) == u
  {
    UrgencyKeysNormal();
    UrgencyAt(UrgencyValue(u), UrgencyEntry(u));
  }
}
