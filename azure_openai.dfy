/**
 * The LLM client's own logic around the two foreign calls it makes (the
 * chat completion and `json.loads`, both parameters here): cutting the
 * JSON text out of a reply that may be wrapped in a markdown fence or in
 * prose, the error texts of `analyze`, and the per-item results of
 * `analyze_batch`.
 */
module AzureOpenAI {
  import opened Wrappers
  import opened Text
  import opened JsonValue

  /**
   * The two foreign calls: the chat completion for a system and a user
   * prompt (its text, or the text of what it raised), and `json.loads`
   * (the value, or the text of the `JSONDecodeError`).
   */
  datatype Llm = Llm(complete: (string, string) -> Result<string, string>,
                     loads: string -> Result<Json, string>)

  const FENCE_JSON := "```json"
  const FENCE := "```"

  /** An opening "```json" fence is removed, else an opening "```" fence. */
  function DropOpeningFence(c: string): (r: string)
    ensures StartsWith(c, FENCE_JSON) ==> r == c[7..]
    ensures !StartsWith(c, FENCE_JSON) && StartsWith(c, FENCE) ==> r == c[3..]
    ensures !StartsWith(c, FENCE) ==> r == c
  {
    if StartsWith(c, FENCE_JSON) then c[7..] else if StartsWith(c, FENCE) then c[3..] else c
  }

  /** A closing "```" fence is removed. */
  function DropClosingFence(c: string): (r: string)
    ensures EndsWith(c, FENCE) ==> r == c[..|c| - 3]
    ensures !EndsWith(c, FENCE) ==> r == c
  {
    if EndsWith(c, FENCE) then c[..|c| - 3] else c
  }

  /** The reply stripped, without its fences, stripped again. */
  function Cleaned(content: string): (r: string)
    ensures r == [] || (!IsSpace(r[0]) && !IsSpace(r[|r| - 1]))
  {
    Strip(DropClosingFence(DropOpeningFence(Strip(content))))
  }

  /**
   * The inclusive span from the first '{' to the last '}' of a cleaned
   * reply, when the last '}' comes after the first '{'; otherwise the whole
   * cleaned reply.
   */
  function Candidate(c: string): (r: string)
    ensures var start := Find(c, '{');
      start != -1 && RFind(c, '}') + 1 > start ==>
        |r| >= 2 && r[0] == '{' && r[|r| - 1] == '}' && start + |r| <= |c| && c[start..start + |r|] == r
        && (forall i :: 0 <= i < start ==> c[i] != '{')
        && (forall i :: start + |r| <= i < |c| ==> c[i] != '}')
    ensures Find(c, '{') == -1 || RFind(c, '}') + 1 <= Find(c, '{') ==> r == c
  {
    var start := Find(c, '{');
    var end := RFind(c, '}') + 1;
    if start != -1 && end > start then c[start..end] else c
  }

  /** `_parse_json_response` up to `json.loads`: the text that is parsed. */
  function JsonCandidate(content: string): (r: string)
    ensures r == Candidate(Cleaned(content))
  {
    Candidate(Cleaned(content))
  }

  // The lemmas below follow an object text `o` (from its '{' to its '}')
  // through each cleaning step: whatever surrounds it loses characters,
  // but never gains a '{' before it or a '}' after it.

  predicate Braced(o: string) {
    |o| >= 2 && o[0] == '{' && o[|o| - 1] == '}'
  }

  lemma StripLeftFramed(p: string, o: string, s: string) returns (p': string)
    requires Braced(o)
    ensures |p'| <= |p| && p' == p[|p| - |p'|..]
    ensures StripLeft(p + (o + s)) == p' + (o + s)
  {
    var x := p + (o + s);
    var l := StripLeft(x);
    var k := |x| - |l|;
    assert x[|p|] == o[0] && !IsSpace(x[|p|]);
    assert k <= |p|;
    p' := p[k..];
    assert l == x[k..];
  }

  lemma StripRightFramed(p: string, o: string, s: string) returns (s': string)
    requires Braced(o)
    ensures |s'| <= |s| && s' == s[..|s'|]
    ensures StripRight((p + o) + s) == (p + o) + s'
  {
    var x := (p + o) + s;
    var r := StripRight(x);
    var m := |r|;
    assert x[|p| + |o| - 1] == o[|o| - 1] && !IsSpace(x[|p| + |o| - 1]);
    assert m >= |p| + |o|;
    s' := s[..m - |p| - |o|];
    assert r == x[..m];
  }

  lemma StripFramed(p: string, o: string, s: string) returns (p': string, s': string)
    requires Braced(o)
    ensures |p'| <= |p| && p' == p[|p| - |p'|..] && |s'| <= |s| && s' == s[..|s'|]
    ensures Strip(p + (o + s)) == p' + (o + s')
  {
    p' := StripLeftFramed(p, o, s);
    assert p' + (o + s) == (p' + o) + s;
    s' := StripRightFramed(p', o, s);
    assert (p' + o) + s' == p' + (o + s');
  }

  lemma DropPrefixFramed(p: string, o: string, s: string, fence: string)
    requires Braced(o) && '{' !in fence
    requires StartsWith(p + (o + s), fence)
    ensures |fence| <= |p| && (p + (o + s))[|fence|..] == p[|fence|..] + (o + s)
  {
    var x := p + (o + s);
    assert |p| < |x| && x[|p|] == '{';
    assert |fence| <= |p|;
  }

  lemma DropSuffixFramed(p: string, o: string, s: string)
    requires Braced(o)
    requires EndsWith(p + (o + s), FENCE)
    ensures |s| >= 3 && (p + (o + s))[..|p + (o + s)| - 3] == p + (o + s[..|s| - 3])
  {
    var x := p + (o + s);
    assert x[|p| + |o| - 1] == '}';
    assert |s| >= 3;
    assert x[..|x| - 3] == p + (o + s[..|s| - 3]);
  }

  lemma NoneInSuffix(c: char, p: string, p': string)
    requires |p'| <= |p| && p' == p[|p| - |p'|..] && c !in p
    ensures c !in p'
  {
    forall i | 0 <= i < |p'| ensures p'[i] != c { assert p'[i] == p[|p| - |p'| + i]; }
  }

  lemma NoneInPrefix(c: char, s: string, s': string)
    requires |s'| <= |s| && s' == s[..|s'|] && c !in s
    ensures c !in s'
  {
    forall i | 0 <= i < |s'| ensures s'[i] != c { assert s'[i] == s[i]; }
  }

  /** Dropping the fences keeps an object text whole and adds no brace around it. */
  lemma FencesFramed(p: string, o: string, s: string) returns (p': string, s': string)
    requires Braced(o) && '{' !in p && '}' !in s
    ensures DropClosingFence(DropOpeningFence(p + (o + s))) == p' + (o + s') && '{' !in p' && '}' !in s'
  {
    var c := p + (o + s);
    p' := p;
    if StartsWith(c, FENCE_JSON) {
      DropPrefixFramed(p, o, s, FENCE_JSON);
      p' := p[7..];
    } else if StartsWith(c, FENCE) {
      DropPrefixFramed(p, o, s, FENCE);
      p' := p[3..];
    }
    NoneInSuffix('{', p, p');
    assert DropOpeningFence(c) == p' + (o + s);
    s' := s;
    if EndsWith(p' + (o + s), FENCE) {
      DropSuffixFramed(p', o, s);
      s' := s[..|s| - 3];
    }
    NoneInPrefix('}', s, s');
  }

  /** Cleaning keeps an object text whole and adds no brace around it. */
  lemma CleanedFramed(p: string, o: string, s: string) returns (p': string, s': string)
    requires Braced(o) && '{' !in p && '}' !in s
    ensures Cleaned(p + (o + s)) == p' + (o + s') && '{' !in p' && '}' !in s'
  {
    var p1, s1 := StripFramed(p, o, s);
    NoneInSuffix('{', p, p1);
    NoneInPrefix('}', s, s1);
    var p2, s2 := FencesFramed(p1, o, s1);
    p', s' := StripFramed(p2, o, s2);
    NoneInSuffix('{', p2, p');
    NoneInPrefix('}', s2, s');
  }

  lemma FindIs(c: string, ch: char, k: nat)
    requires k < |c| && c[k] == ch && forall i :: 0 <= i < k ==> c[i] != ch
    ensures Find(c, ch) == k
  {
  }

  lemma RFindIs(c: string, ch: char, k: nat)
    requires k < |c| && c[k] == ch && forall i :: k < i < |c| ==> c[i] != ch
    ensures RFind(c, ch) == k
  {
  }

  /** In a cleaned reply framed this way, the span is the object text. */
  lemma CandidateIsObject(p: string, o: string, s: string)
    requires Braced(o) && '{' !in p && '}' !in s
    ensures Candidate(p + (o + s)) == o
  {
    var c := p + (o + s);
    assert c[|p|] == o[0] && c[|p| + |o| - 1] == o[|o| - 1];
    assert forall i :: 0 <= i < |p| ==> c[i] == p[i];
    assert forall i :: |p| + |o| <= i < |c| ==> c[i] == s[i - |p| - |o|];
    FindIs(c, '{', |p|);
    RFindIs(c, '}', |p| + |o| - 1);
    assert c[|p|..|p| + |o|] == o;
  }

  /**
   * An object text inside a fence, or between prose without braces, is
   * exactly what is handed to `json.loads`.
   */
  lemma CandidateOfFramed(p: string, o: string, s: string)
    requires Braced(o) && '{' !in p && '}' !in s
    ensures JsonCandidate(p + (o + s)) == o
  {
    var p', s' := CleanedFramed(p, o, s);
    CandidateIsObject(p', o, s');
  }

  /** The usual reply shape: the object inside a "```json" fence. */
  lemma CandidateOfFence(o: string)
    requires Braced(o)
    ensures JsonCandidate("```json\n" + (o + "\n```")) == o
  {
    CandidateOfFramed("```json\n", o, "\n```");
  }

  /** `_parse_json_response`: `json.loads` applied to the candidate text. */
  function ParseJsonResponse(content: string, llm: Llm): (r: Result<Json, string>)
    ensures r == llm.loads(JsonCandidate(content))
  {
    llm.loads(JsonCandidate(content))
  }

  const CALL_FAILED := "LLM call failed: "
  const INVALID_JSON := "Invalid JSON response from LLM: "

  /**
   * `analyze`: the completion, then the parse; every failure is an
   * `LLMError`, whose text names the step that failed.
   */
  function Analyze(systemPrompt: string, userPrompt: string, llm: Llm): (r: Result<Json, string>)
    ensures llm.complete(systemPrompt, userPrompt).Err? ==>
      r == Err(CALL_FAILED + llm.complete(systemPrompt, userPrompt).error)
    ensures llm.complete(systemPrompt, userPrompt).Ok? ==>
      var parsed := ParseJsonResponse(llm.complete(systemPrompt, userPrompt).value, llm);
      (parsed.Ok? ==> r == parsed) && (parsed.Err? ==> r == Err(INVALID_JSON + parsed.error))
    ensures r.Err? ==> StartsWith(r.error, CALL_FAILED) || StartsWith(r.error, INVALID_JSON)
  {
    match llm.complete(systemPrompt, userPrompt)
    case Err(e) => Err(CALL_FAILED + e)
    case Ok(content) =>
      match ParseJsonResponse(content, llm)
      case Err(e) => Err(INVALID_JSON + e)
      case Ok(v) => Ok(v)
  }

  /** One entry of `analyze_batch`: the parsed reply, or `{"error": <message>}`. */
  function BatchItem(r: Result<Json, string>): (item: Json)
    ensures r.Ok? ==> item == r.value
    ensures r.Err? ==> item == JObj(map["error" := JStr(r.error)])
  {
    if r.Ok? then r.value else JObj(map["error" := JStr(r.error)])
  }

  /** `analyze_batch`: one result per prompt, in order; a failed prompt does not stop the batch. */
  method AnalyzeBatch(systemPrompt: string, userPrompts: seq<string>, llm: Llm) returns (results: seq<Json>)
    ensures |results| == |userPrompts|
    ensures forall i :: 0 <= i < |userPrompts| ==> results[i] == BatchItem(Analyze(systemPrompt, userPrompts[i], llm))
  {
    results := [];
    var i := 0;
    while i < |userPrompts|
      invariant 0 <= i <= |userPrompts| && |results| == i
      invariant forall k :: 0 <= k < i ==> results[k] == BatchItem(Analyze(systemPrompt, userPrompts[k], llm))
    {
      var result := Analyze(systemPrompt, userPrompts[i], llm);
      results := results + [BatchItem(result)];
      i := i + 1;
    }
  }
}
