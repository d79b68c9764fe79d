/**
 * The privacy agent: LGPD anonymisation of a complaint before any text reaches
 * the language model. Four substitution passes run in a fixed order (card,
 * CPF, e-mail, phone); each rewrites the output of the one before and replaces
 * every match with a bracketed marker.
 */
module Privacy {
  import opened Wrappers
  import opened Text
  import opened PiiMatch
  import opened Schemas

  const PRIVACY := "privacy"
  const CARD_MARKER := "[CART\U{C3}O REMOVIDO]"
  const CPF_MARKER := "[CPF REMOVIDO]"
  const EMAIL_MARKER := "[EMAIL REMOVIDO]"
  const PHONE_MARKER := "[TELEFONE REMOVIDO]"

  const ONE := AtMost(1)

  /** `\d{4}[\s-]?\d{4}[\s-]?\d{4}[\s-]?\d{4}` */
  const CARD_PATTERN: Pattern := [
    Item(Digit, 4, AtMost(4)), Item(SpaceOrDash, 0, ONE), Item(Digit, 4, AtMost(4)),
    Item(SpaceOrDash, 0, ONE), Item(Digit, 4, AtMost(4)), Item(SpaceOrDash, 0, ONE),
    Item(Digit, 4, AtMost(4))]

  /** `\d{3}\.?\d{3}\.?\d{3}-?\d{2}` */
  const CPF_PATTERN: Pattern := [
    Item(Digit, 3, AtMost(3)), Item(Lit('.'), 0, ONE), Item(Digit, 3, AtMost(3)),
    Item(Lit('.'), 0, ONE), Item(Digit, 3, AtMost(3)), Item(Lit('-'), 0, ONE),
    Item(Digit, 2, AtMost(2))]

  /** `[a-zA-Z0-9_.+-]+@[a-zA-Z0-9-]+\.[a-zA-Z0-9-.]+` */
  const EMAIL_PATTERN: Pattern := [
    Item(EmailLocal, 1, Unbounded), Item(Lit('@'), 1, ONE), Item(EmailDomain, 1, Unbounded),
    Item(Lit('.'), 1, ONE), Item(EmailTail, 1, Unbounded)]

  /** `\(?\d{2}\)?[\s-]?\d{4,5}-?\d{4}` */
  const PHONE_PATTERN: Pattern := [
    Item(Lit('('), 0, ONE), Item(Digit, 2, AtMost(2)), Item(Lit(')'), 0, ONE),
    Item(SpaceOrDash, 0, ONE), Item(Digit, 4, AtMost(5)), Item(Lit('-'), 0, ONE),
    Item(Digit, 4, AtMost(4))]

  datatype PiiRule = PiiRule(name: string, pattern: Pattern, marker: string)

  /** The passes in the order they run: the most specific first. */
  const PII_PATTERNS: seq<PiiRule> := [
    PiiRule("cartao", CARD_PATTERN, CARD_MARKER),
    PiiRule("cpf", CPF_PATTERN, CPF_MARKER),
    PiiRule("email", EMAIL_PATTERN, EMAIL_MARKER),
    PiiRule("telefone", PHONE_PATTERN, PHONE_MARKER)]

  predicate NonEmptyMatches(rules: seq<PiiRule>) {
    forall i :: 0 <= i < |rules| ==> MinLength(rules[i].pattern) >= 1
  }

  /** The shortest text each pattern can match. */
  lemma CardLength() ensures MinLength(CARD_PATTERN) == 16 {
    var c := CARD_PATTERN;
    assert c[6..][1..] == [];
    assert MinLength(c[6..]) == 4;
    assert c[5..][1..] == c[6..];
    assert MinLength(c[5..]) == 4;
    assert c[4..][1..] == c[5..];
    assert MinLength(c[4..]) == 8;
    assert c[3..][1..] == c[4..];
    assert MinLength(c[3..]) == 8;
    assert c[2..][1..] == c[3..];
    assert MinLength(c[2..]) == 12;
    assert c[1..][1..] == c[2..];
    assert MinLength(c[1..]) == 12;
  }

  lemma CpfLength() ensures MinLength(CPF_PATTERN) == 11 {
    var d := CPF_PATTERN;
    assert d[6..][1..] == [];
    assert MinLength(d[6..]) == 2;
    assert d[5..][1..] == d[6..];
    assert MinLength(d[5..]) == 2;
    assert d[4..][1..] == d[5..];
    assert MinLength(d[4..]) == 5;
    assert d[3..][1..] == d[4..];
    assert MinLength(d[3..]) == 5;
    assert d[2..][1..] == d[3..];
    assert MinLength(d[2..]) == 8;
    assert d[1..][1..] == d[2..];
    assert MinLength(d[1..]) == 8;
    assert d[0..][1..] == d[1..];
  }

  lemma EmailLength() ensures MinLength(EMAIL_PATTERN) == 5 {
    var e := EMAIL_PATTERN;
    assert e[4..][1..] == [];
    assert MinLength(e[4..]) == 1;
    assert e[3..][1..] == e[4..];
    assert MinLength(e[3..]) == 2;
    assert e[2..][1..] == e[3..];
    assert MinLength(e[2..]) == 3;
    assert e[1..][1..] == e[2..];
    assert MinLength(e[1..]) == 4;
    assert e[0..][1..] == e[1..];
  }

  lemma PhoneLength() ensures MinLength(PHONE_PATTERN) == 10 {
    var f := PHONE_PATTERN;
    assert f[6..][1..] == [];
    assert MinLength(f[6..]) == 4;
    assert f[5..][1..] == f[6..];
    assert MinLength(f[5..]) == 4;
    assert f[4..][1..] == f[5..];
    assert MinLength(f[4..]) == 8;
    assert f[3..][1..] == f[4..];
    assert MinLength(f[3..]) == 8;
    assert f[2..][1..] == f[3..];
    assert MinLength(f[2..]) == 8;
    assert f[1..][1..] == f[2..];
    assert MinLength(f[1..]) == 10;
    assert f[0..][1..] == f[1..];
  }

  lemma RulesWellFormed()
    ensures NonEmptyMatches(PII_PATTERNS)
  {
    CardLength();
    CpfLength();
    EmailLength();
    PhoneLength();
  }

  /** The passes of `rules` applied in order, each to the previous output, with the summed count. */
  function ApplyRules(rules: seq<PiiRule>, text: string): (r: (string, nat))
    requires NonEmptyMatches(rules)
    ensures r.1 == 0 ==> r.0 == text
  {
    if rules == [] then (text, 0)
    else
      var first := Subn(rules[0].pattern, rules[0].marker, text);
      var rest := ApplyRules(rules[1..], first.0);
      (rest.0, first.1 + rest.1)
  }

  /** What `_mask_pii` returns: the masked text and the number of replacements. */
  function MaskText(text: string): (r: (string, nat))
    ensures text == "" ==> r == (text, 0)
    ensures r.1 == 0 ==> r.0 == text
  {
    if text == "" then (text, 0) else ApplyRules(PII_PATTERNS, text)
  }

  /**
   * The passes run card, then CPF, then e-mail, then phone, each on the
   * previous pass's output, and the count is the sum of the four counts.
   */
  lemma MaskTextPasses(text: string)
    ensures
      var card := Subn(CARD_PATTERN, CARD_MARKER, text);
      var cpf := Subn(CPF_PATTERN, CPF_MARKER, card.0);
      var email := Subn(EMAIL_PATTERN, EMAIL_MARKER, cpf.0);
      var phone := Subn(PHONE_PATTERN, PHONE_MARKER, email.0);
      MaskText(text).0 == phone.0 && MaskText(text).1 == card.1 + cpf.1 + email.1 + phone.1
  {
    RulesWellFormed();
    if text == "" {
      assert Subn(CARD_PATTERN, CARD_MARKER, text) == ("", 0);
      assert Subn(CPF_PATTERN, CPF_MARKER, "") == ("", 0);
      assert Subn(EMAIL_PATTERN, EMAIL_MARKER, "") == ("", 0);
      assert Subn(PHONE_PATTERN, PHONE_MARKER, "") == ("", 0);
    } else {
      NonEmptyTextPasses(text);
    }
  }

  lemma NonEmptyTextPasses(text: string)
    requires text != ""
    ensures
      var card := Subn(CARD_PATTERN, CARD_MARKER, text);
      var cpf := Subn(CPF_PATTERN, CPF_MARKER, card.0);
      var email := Subn(EMAIL_PATTERN, EMAIL_MARKER, cpf.0);
      var phone := Subn(PHONE_PATTERN, PHONE_MARKER, email.0);
      MaskText(text).0 == phone.0 && MaskText(text).1 == card.1 + cpf.1 + email.1 + phone.1
  {
    RulesWellFormed();
    var r := PII_PATTERNS;
    var card := Subn(CARD_PATTERN, CARD_MARKER, text);
    var cpf := Subn(CPF_PATTERN, CPF_MARKER, card.0);
    var email := Subn(EMAIL_PATTERN, EMAIL_MARKER, cpf.0);
    assert r[3..][1..] == [] && r[2..][1..] == r[3..] && r[1..][1..] == r[2..];
    assert r[3..][0] == PiiRule("telefone", PHONE_PATTERN, PHONE_MARKER);
    assert r[2..][0] == PiiRule("email", EMAIL_PATTERN, EMAIL_MARKER);
    assert r[1..][0] == PiiRule("cpf", CPF_PATTERN, CPF_MARKER);
    assert r[0] == PiiRule("cartao", CARD_PATTERN, CARD_MARKER);
    ApplyStep(r[3..], email.0);
    ApplyStep(r[2..], cpf.0);
    ApplyStep(r[1..], card.0);
    ApplyStep(r, text);
  }

  lemma ApplyStep(rules: seq<PiiRule>, text: string)
    requires rules != [] && NonEmptyMatches(rules)
    ensures ApplyRules(rules, text).0
            == ApplyRules(rules[1..], Subn(rules[0].pattern, rules[0].marker, text).0).0
    ensures ApplyRules(rules, text).1
            == Subn(rules[0].pattern, rules[0].marker, text).1 + ApplyRules(rules[1..], Subn(rules[0].pattern, rules[0].marker, text).0).1
  {
  }

  /** The anonymised copy `process` returns. */
  function Anonymize(c: ComplaintRaw): (r: ComplaintRaw)
    ensures r.description == MaskText(c.description).0
    ensures r.title == MaskText(c.title).0
    ensures r.consumerContact == if c.consumerContact.Some? then Some(MaskText(c.consumerContact.value).0) else None
    ensures r.(description := c.description, title := c.title, consumerContact := c.consumerContact) == c
  {
    var masked := c.(description := MaskText(c.description).0);
    var masked := if masked.title != "" then masked.(title := MaskText(masked.title).0) else masked;
    if masked.consumerContact.Some? && masked.consumerContact.value != "" then
      masked.(consumerContact := Some(MaskText(masked.consumerContact.value).0))
    else masked
  }

  /** `validate_input`: a record is present (its description is always a string). */
  function ValidateInput(c: Option<ComplaintRaw>): bool {
    c.Some?
  }

  class PrivacyAgent {
    var initialized: bool

    constructor ()
      ensures !initialized
    {
      initialized := false;
    }

    method Initialize()
      modifies this
      ensures initialized
    {
      initialized := true;
    }

    /** `_mask_pii`: the passes in order over the text, summing the counts. */
    method MaskPii(text: string) returns (masked: string, count: nat)
      ensures masked == MaskText(text).0 && count == MaskText(text).1
    {
      if text == "" {
        return text, 0;
      }
      RulesWellFormed();
      masked, count := text, 0;
      var i := 0;
      while i < |PII_PATTERNS|
        invariant 0 <= i <= |PII_PATTERNS|
        invariant ApplyRules(PII_PATTERNS[i..], masked).0 == ApplyRules(PII_PATTERNS, text).0
        invariant count + ApplyRules(PII_PATTERNS[i..], masked).1 == ApplyRules(PII_PATTERNS, text).1
      {
        var rule := PII_PATTERNS[i];
        var pass := Subn(rule.pattern, rule.marker, masked);
        assert PII_PATTERNS[i..][1..] == PII_PATTERNS[i + 1..];
        masked, count := pass.0, count + pass.1;
        i := i + 1;
      }
    }

    /** `process`: a copy with description, title and contact masked. */
    method Process(complaint: ComplaintRaw) returns (anonymized: ComplaintRaw)
      ensures anonymized == Anonymize(complaint)
    {
      anonymized := complaint;
      var text, count := MaskPii(anonymized.description);
      anonymized := anonymized.(description := text);
      if anonymized.title != "" {
        text, count := MaskPii(anonymized.title);
        anonymized := anonymized.(title := text);
      }
      if anonymized.consumerContact.Some? && anonymized.consumerContact.value != "" {
        text, count := MaskPii(anonymized.consumerContact.value);
        anonymized := anonymized.(consumerContact := Some(text));
      }
    }

    /** `process_state`: record the anonymised copy and move to ANONYMIZED; the raw record is kept. */
    method ProcessState(state: ComplaintState)
      modifies state
      ensures state.View() == old(state.View()).(anonymized := Some(Anonymize(state.raw)),
        status := Anonymized, trail := old(state.trail) + [Anonymized])
    {
      var anonymized := Process(state.raw);
      state.anonymized := Some(anonymized);
      state.SetStatus(Anonymized);
    }
  }
}
