/**
 * What the four passes of the privacy agent do to text: markers are never
 * re-masked, free text is kept as it is, and each kind of personal data, in
 * the layouts the patterns accept, becomes its own marker. The order of the
 * passes matters: a bare 11-digit number would satisfy the phone pattern too,
 * and it is the CPF pass, running first, that claims it.
 */
module PrivacyProps {
  import opened Wrappers
  import opened Text
  import opened PiiMatch
  import opened Privacy

  /** No digit and no `@`: no pattern can find what it needs here. */
  predicate Plain(w: string) {
    forall i :: 0 <= i < |w| ==> !IsDigit(w[i]) && w[i] != '@'
  }

  /** A character outside the classes of all four patterns (`,`, `!`, `:`, an accented letter, …). */
  predicate Boundary(c: char) {
    !IsDigit(c) && !IsSpace(c) && !IsAsciiLetter(c)
    && c != '-' && c != '.' && c != '_' && c != '+' && c != '(' && c != ')' && c != '@'
  }

  predicate BoundaryStart(y: string) {
    y == [] || Boundary(y[0])
  }

  predicate Digits(s: string, n: nat) {
    |s| == n && forall i :: 0 <= i < |s| ==> IsDigit(s[i])
  }

  /** An optional single character of class `k`: absent, or one character. */
  predicate Opt(s: string, k: CharClass) {
    s == [] || (|s| == 1 && InClass(k, s[0]))
  }

  // ---------------------------------------------------------------------
  // Which characters the patterns use.

  lemma NotInCard(c: char)
    requires !IsDigit(c) && !IsSpace(c) && c != '-'
    ensures !InUnion(CARD_PATTERN, c)
  {
    var p := CARD_PATTERN;
    assert p[6..][1..] == [] && p[5..][1..] == p[6..] && p[4..][1..] == p[5..];
    assert p[3..][1..] == p[4..] && p[2..][1..] == p[3..] && p[1..][1..] == p[2..];
    assert !InUnion(p[6..], c);
    assert !InUnion(p[4..], c);
    assert !InUnion(p[2..], c);
  }

  lemma NotInCpf(c: char)
    requires !IsDigit(c) && c != '.' && c != '-'
    ensures !InUnion(CPF_PATTERN, c)
  {
    var p := CPF_PATTERN;
    assert p[6..][1..] == [] && p[5..][1..] == p[6..] && p[4..][1..] == p[5..];
    assert p[3..][1..] == p[4..] && p[2..][1..] == p[3..] && p[1..][1..] == p[2..];
    assert !InUnion(p[6..], c);
    assert !InUnion(p[4..], c);
    assert !InUnion(p[2..], c);
  }

  lemma NotInEmail(c: char)
    requires !IsDigit(c) && !IsAsciiLetter(c) && c != '_' && c != '.' && c != '+' && c != '-' && c != '@'
    ensures !InUnion(EMAIL_PATTERN, c)
  {
    var p := EMAIL_PATTERN;
    assert p[4..][1..] == [] && p[3..][1..] == p[4..] && p[2..][1..] == p[3..] && p[1..][1..] == p[2..];
    assert !InUnion(p[4..], c);
    assert !InUnion(p[2..], c);
  }

  lemma NotInPhone(c: char)
    requires !IsDigit(c) && !IsSpace(c) && c != '-' && c != '(' && c != ')'
    ensures !InUnion(PHONE_PATTERN, c)
  {
    var p := PHONE_PATTERN;
    assert p[6..][1..] == [] && p[5..][1..] == p[6..] && p[4..][1..] == p[5..];
    assert p[3..][1..] == p[4..] && p[2..][1..] == p[3..] && p[1..][1..] == p[2..];
    assert !InUnion(p[6..], c);
    assert !InUnion(p[4..], c);
    assert !InUnion(p[2..], c);
  }

  lemma BoundaryOutsideAll(c: char)
    requires Boundary(c) || c == '[' || c == ']'
    ensures !InUnion(CARD_PATTERN, c) && !InUnion(CPF_PATTERN, c)
    ensures !InUnion(EMAIL_PATTERN, c) && !InUnion(PHONE_PATTERN, c)
  {
    NotInCard(c);
    NotInCpf(c);
    NotInEmail(c);
    NotInPhone(c);
  }

  // ---------------------------------------------------------------------
  // The layouts each pattern takes in one piece.

  /** Four groups of four digits, each pair optionally split by one space or dash. */
  predicate CardLayout(ws: seq<string>) {
    |ws| == 7 && Digits(ws[0], 4) && Opt(ws[1], SpaceOrDash) && Digits(ws[2], 4)
    && Opt(ws[3], SpaceOrDash) && Digits(ws[4], 4) && Opt(ws[5], SpaceOrDash) && Digits(ws[6], 4)
  }

  /** A group of exactly `n` characters of an item's class that takes exactly `n`. */
  lemma FitsGroup(p: Pattern, ws: seq<string>, t: string, k: nat)
    requires k < |p| == |ws| && p[k].hi == AtMost(p[k].lo) && |ws[k]| == p[k].lo
    requires forall i :: 0 <= i < |ws[k]| ==> InClass(p[k].cls, ws[k][i])
    ensures Fits(p[k], ws[k], After(ws, t, k))
  {
    FitsAt(p, ws, t, k);
  }

  /** An optional character, followed by a segment that starts outside its class. */
  lemma FitsOpt(p: Pattern, ws: seq<string>, t: string, k: nat)
    requires k + 1 < |p| == |ws| && p[k].lo == 0 && p[k].hi == AtMost(1) && Opt(ws[k], p[k].cls)
    requires ws[k + 1] != [] && !InClass(p[k].cls, ws[k + 1][0])
    ensures Fits(p[k], ws[k], After(ws, t, k))
  {
    FitsAt(p, ws, t, k);
  }

  lemma CardMatch(ws: seq<string>, t: string)
    requires CardLayout(ws)
    ensures Match(CARD_PATTERN, Flatten(ws) + t) == Some(|Flatten(ws)|)
  {
    var p := CARD_PATTERN;
    assert IsDigit(ws[2][0]) && IsDigit(ws[4][0]) && IsDigit(ws[6][0]);
    LaidEnd(p, ws, t);
    FitsGroup(p, ws, t, 6);
    LaidStep(p, ws, t, 6);
    FitsOpt(p, ws, t, 5);
    LaidStep(p, ws, t, 5);
    FitsGroup(p, ws, t, 4);
    LaidStep(p, ws, t, 4);
    FitsOpt(p, ws, t, 3);
    LaidStep(p, ws, t, 3);
    FitsGroup(p, ws, t, 2);
    LaidStep(p, ws, t, 2);
    FitsOpt(p, ws, t, 1);
    LaidStep(p, ws, t, 1);
    FitsGroup(p, ws, t, 0);
    LaidStep(p, ws, t, 0);
    assert p[0..] == p && ws[0..] == ws;
    LaidMatches(p, ws, t);
  }

  /** Three groups of three digits and one of two, split by an optional `.`, `.` and `-`. */
  predicate CpfLayout(ws: seq<string>) {
    |ws| == 7 && Digits(ws[0], 3) && Opt(ws[1], Lit('.')) && Digits(ws[2], 3)
    && Opt(ws[3], Lit('.')) && Digits(ws[4], 3) && Opt(ws[5], Lit('-')) && Digits(ws[6], 2)
  }

  lemma CpfMatch(ws: seq<string>, t: string)
    requires CpfLayout(ws)
    ensures Match(CPF_PATTERN, Flatten(ws) + t) == Some(|Flatten(ws)|)
  {
    var p := CPF_PATTERN;
    assert IsDigit(ws[2][0]) && IsDigit(ws[4][0]) && IsDigit(ws[6][0]);
    LaidEnd(p, ws, t);
    FitsGroup(p, ws, t, 6);
    LaidStep(p, ws, t, 6);
    FitsOpt(p, ws, t, 5);
    LaidStep(p, ws, t, 5);
    FitsGroup(p, ws, t, 4);
    LaidStep(p, ws, t, 4);
    FitsOpt(p, ws, t, 3);
    LaidStep(p, ws, t, 3);
    FitsGroup(p, ws, t, 2);
    LaidStep(p, ws, t, 2);
    FitsOpt(p, ws, t, 1);
    LaidStep(p, ws, t, 1);
    FitsGroup(p, ws, t, 0);
    LaidStep(p, ws, t, 0);
    assert p[0..] == p && ws[0..] == ws;
    LaidMatches(p, ws, t);
  }

  predicate AllIn(k: CharClass, s: string) {
    forall i :: 0 <= i < |s| ==> InClass(k, s[i])
  }

  /** Local part, `@`, domain, `.`, and the rest of the domain. */
  predicate EmailLayout(ws: seq<string>) {
    |ws| == 5 && ws[0] != [] && AllIn(EmailLocal, ws[0]) && ws[1] == "@"
    && ws[2] != [] && AllIn(EmailDomain, ws[2]) && ws[3] == "." && ws[4] != [] && AllIn(EmailTail, ws[4])
  }

  /** The last part is greedy, so the text after the address must not continue it. */
  lemma EmailMatch(ws: seq<string>, t: string)
    requires EmailLayout(ws)
    requires t == [] || !InClass(EmailTail, t[0])
    ensures Match(EMAIL_PATTERN, Flatten(ws) + t) == Some(|Flatten(ws)|)
  {
    var p := EMAIL_PATTERN;
    assert ws[1][0] == '@' && ws[3][0] == '.';
    LaidEnd(p, ws, t);
    FitsAt(p, ws, t, 4);
    LaidStep(p, ws, t, 4);
    FitsGroup(p, ws, t, 3);
    LaidStep(p, ws, t, 3);
    FitsAt(p, ws, t, 2);
    LaidStep(p, ws, t, 2);
    FitsGroup(p, ws, t, 1);
    LaidStep(p, ws, t, 1);
    FitsAt(p, ws, t, 0);
    LaidStep(p, ws, t, 0);
    assert p[0..] == p && ws[0..] == ws;
    LaidMatches(p, ws, t);
  }

  /**
   * Optional `(`, two digits, optional `)`, optional space or dash, four or
   * five digits, optional `-`, four digits. Four middle digits need the dash,
   * since the greedy middle group would otherwise take a fifth.
   */
  predicate PhoneLayout(ws: seq<string>) {
    |ws| == 7 && Opt(ws[0], Lit('(')) && Digits(ws[1], 2) && Opt(ws[2], Lit(')'))
    && Opt(ws[3], SpaceOrDash) && 4 <= |ws[4]| <= 5 && AllIn(Digit, ws[4])
    && Opt(ws[5], Lit('-')) && Digits(ws[6], 4)
    && (ws[5] == "-" || |ws[4]| == 5)
  }

  lemma PhoneMatch(ws: seq<string>, t: string)
    requires PhoneLayout(ws)
    ensures Match(PHONE_PATTERN, Flatten(ws) + t) == Some(|Flatten(ws)|)
  {
    var p := PHONE_PATTERN;
    assert IsDigit(ws[1][0]) && IsDigit(ws[4][0]) && IsDigit(ws[6][0]);
    LaidEnd(p, ws, t);
    FitsGroup(p, ws, t, 6);
    LaidStep(p, ws, t, 6);
    FitsOpt(p, ws, t, 5);
    LaidStep(p, ws, t, 5);
    PhoneFitsMiddle(ws, t);
    LaidStep(p, ws, t, 4);
    FitsOpt(p, ws, t, 3);
    LaidStep(p, ws, t, 3);
    PhoneFitsClose(ws, t);
    LaidStep(p, ws, t, 2);
    FitsGroup(p, ws, t, 1);
    LaidStep(p, ws, t, 1);
    FitsOpt(p, ws, t, 0);
    LaidStep(p, ws, t, 0);
    assert p[0..] == p && ws[0..] == ws;
    LaidMatches(p, ws, t);
  }

  lemma PhoneFitsMiddle(ws: seq<string>, t: string)
    requires PhoneLayout(ws)
    ensures Fits(PHONE_PATTERN[4], ws[4], After(ws, t, 4))
  {
    if |ws[4]| == 4 {
      assert ws[5][0] == '-';
    }
    FitsAt(PHONE_PATTERN, ws, t, 4);
  }

  /** The optional `)` may be followed by the separator or, when that is absent, by the middle digits. */
  lemma PhoneFitsClose(ws: seq<string>, t: string)
    requires PhoneLayout(ws)
    ensures Fits(PHONE_PATTERN[2], ws[2], After(ws, t, 2))
  {
    AfterNext(ws, t, 2);
    AfterNext(ws, t, 3);
    var a := After(ws, t, 2);
    if ws[3] == [] {
      assert a[0] == ws[4][0];
    } else {
      assert a[0] == ws[3][0];
    }
    FitsOptAfter(PHONE_PATTERN, ws, t, 2);
  }

  // ---------------------------------------------------------------------
  // The passes after the card pass, as stages.

  /** The phone pass. */
  function PhoneStage(t: string): (string, nat) {
    PhoneLength();
    Subn(PHONE_PATTERN, PHONE_MARKER, t)
  }

  /** The e-mail pass, then the phone pass, with the summed count. */
  function EmailStage(t: string): (string, nat) {
    EmailLength();
    var e := Subn(EMAIL_PATTERN, EMAIL_MARKER, t);
    var rest := PhoneStage(e.0);
    (rest.0, e.1 + rest.1)
  }

  /** The CPF pass, then the other two, with the summed count. */
  function CpfStage(t: string): (string, nat) {
    CpfLength();
    var d := Subn(CPF_PATTERN, CPF_MARKER, t);
    var rest := EmailStage(d.0);
    (rest.0, d.1 + rest.1)
  }

  lemma MaskByStages(t: string)
    ensures MinLength(CARD_PATTERN) >= 1
    ensures MaskText(t).0 == CpfStage(Subn(CARD_PATTERN, CARD_MARKER, t).0).0
    ensures MaskText(t).1 == Subn(CARD_PATTERN, CARD_MARKER, t).1 + CpfStage(Subn(CARD_PATTERN, CARD_MARKER, t).0).1
  {
    CardLength();
    CpfLength();
    EmailLength();
    PhoneLength();
    var c := Subn(CARD_PATTERN, CARD_MARKER, t);
    var d := Subn(CPF_PATTERN, CPF_MARKER, c.0);
    var e := Subn(EMAIL_PATTERN, EMAIL_MARKER, d.0);
    var f := Subn(PHONE_PATTERN, PHONE_MARKER, e.0);
    assert PhoneStage(e.0) == f;
    assert EmailStage(d.0) == (f.0, e.1 + f.1);
    assert CpfStage(c.0) == (f.0, d.1 + e.1 + f.1);
    MaskTextPasses(t);
  }

  /** The card pass turned `t` into a prefix, a marker, and what it makes of `y`. */
  lemma MaskAfterMarker(t: string, x: string, m: string, y: string)
    requires Plain(x) && Marker(m) && MinLength(CARD_PATTERN) >= 1
    requires Subn(CARD_PATTERN, CARD_MARKER, t).0 == x + (m + Subn(CARD_PATTERN, CARD_MARKER, y).0)
    requires Subn(CARD_PATTERN, CARD_MARKER, t).1 == Subn(CARD_PATTERN, CARD_MARKER, y).1 + 1
    ensures MaskText(t).0 == x + (m + MaskText(y).0)
    ensures MaskText(t).1 == MaskText(y).1 + 1
  {
    MarkedCpfStage(x, m, Subn(CARD_PATTERN, CARD_MARKER, y).0);
    MaskByStages(t);
    MaskByStages(y);
  }

  /** The card pass copied a prefix of `t`, and the later passes turn it into a prefix and a marker. */
  lemma MaskAfterCopy(t: string, v: string, x: string, m: string, y: string)
    requires MinLength(CARD_PATTERN) >= 1
    requires Subn(CARD_PATTERN, CARD_MARKER, t).0 == v
    requires Subn(CARD_PATTERN, CARD_MARKER, t).1 == Subn(CARD_PATTERN, CARD_MARKER, y).1
    requires CpfStage(v).0 == x + (m + CpfStage(Subn(CARD_PATTERN, CARD_MARKER, y).0).0)
    requires CpfStage(v).1 == CpfStage(Subn(CARD_PATTERN, CARD_MARKER, y).0).1 + 1
    ensures MaskText(t).0 == x + (m + MaskText(y).0)
    ensures MaskText(t).1 == MaskText(y).1 + 1
  {
    MaskByStages(t);
    MaskByStages(y);
  }

  /** The CPF pass turned `t` into a prefix, a marker, and what it makes of `u`. */
  lemma CpfStageAfterMarker(t: string, x: string, m: string, u: string)
    requires Plain(x) && Marker(m) && MinLength(CPF_PATTERN) >= 1
    requires Subn(CPF_PATTERN, CPF_MARKER, t).0 == x + (m + Subn(CPF_PATTERN, CPF_MARKER, u).0)
    requires Subn(CPF_PATTERN, CPF_MARKER, t).1 == Subn(CPF_PATTERN, CPF_MARKER, u).1 + 1
    ensures CpfStage(t).0 == x + (m + CpfStage(u).0)
    ensures CpfStage(t).1 == CpfStage(u).1 + 1
  {
    MarkedEmailStage(x, m, Subn(CPF_PATTERN, CPF_MARKER, u).0);
  }

  /** The CPF pass copied a prefix of `t`, and the later passes turn it into a prefix and a marker. */
  lemma CpfStageAfterCopy(t: string, v: string, x: string, m: string, u: string)
    requires MinLength(CPF_PATTERN) >= 1
    requires Subn(CPF_PATTERN, CPF_MARKER, t).0 == v
    requires Subn(CPF_PATTERN, CPF_MARKER, t).1 == Subn(CPF_PATTERN, CPF_MARKER, u).1
    requires EmailStage(v).0 == x + (m + EmailStage(Subn(CPF_PATTERN, CPF_MARKER, u).0).0)
    requires EmailStage(v).1 == EmailStage(Subn(CPF_PATTERN, CPF_MARKER, u).0).1 + 1
    ensures CpfStage(t).0 == x + (m + CpfStage(u).0)
    ensures CpfStage(t).1 == CpfStage(u).1 + 1
  {
  }

  /** The e-mail pass turned `t` into a prefix, a marker, and what it makes of `u`. */
  lemma EmailStageAfterMarker(t: string, x: string, m: string, u: string)
    requires Plain(x) && Marker(m) && MinLength(EMAIL_PATTERN) >= 1
    requires Subn(EMAIL_PATTERN, EMAIL_MARKER, t).0 == x + (m + Subn(EMAIL_PATTERN, EMAIL_MARKER, u).0)
    requires Subn(EMAIL_PATTERN, EMAIL_MARKER, t).1 == Subn(EMAIL_PATTERN, EMAIL_MARKER, u).1 + 1
    ensures EmailStage(t).0 == x + (m + EmailStage(u).0)
    ensures EmailStage(t).1 == EmailStage(u).1 + 1
  {
    MarkedPhoneStage(x, m, Subn(EMAIL_PATTERN, EMAIL_MARKER, u).0);
  }

  predicate NoneIn(k: CharClass, w: string) {
    forall i :: 0 <= i < |w| ==> !InClass(k, w[i])
  }

  // ---------------------------------------------------------------------
  // Markers.

  /** Bracketed, without digits or `@`, as every marker is. */
  predicate Marker(m: string) {
    Plain(m) && m != [] && m[0] == '[' && m[|m| - 1] == ']'
  }

  lemma CardMarkerShape() ensures Marker(CARD_MARKER) { }
  lemma CpfMarkerShape() ensures Marker(CPF_MARKER) { }
  lemma EmailMarkerShape() ensures Marker(EMAIL_MARKER) { }
  lemma PhoneMarkerShape() ensures Marker(PHONE_MARKER) { }

  /**
   * Text without digits or `@`, then a marker: a pass that needs a digit or
   * an `@`, and has no class holding `]`, copies both.
   */
  lemma MarkedPass(p: Pattern, marker: string, j: nat, x: string, m: string, u: string)
    requires MinLength(p) >= 1 && j < |p| && p[j].lo >= 1
    requires p[j].cls == Digit || p[j].cls == Lit('@')
    requires !InUnion(p, ']')
    requires Plain(x) && Marker(m)
    ensures Subn(p, marker, x + (m + u)).0 == x + (m + Subn(p, marker, u).0)
    ensures Subn(p, marker, x + (m + u)).1 == Subn(p, marker, u).1
  {
    assert NoneIn(p[j].cls, x) && NoneIn(p[j].cls, m);
    PassInertPair(p, marker, j, x, m, u);
  }

  lemma MarkedPhoneStage(x: string, m: string, u: string)
    requires Plain(x) && Marker(m)
    ensures PhoneStage(x + (m + u)).0 == x + (m + PhoneStage(u).0)
    ensures PhoneStage(x + (m + u)).1 == PhoneStage(u).1
  {
    PhoneLength();
    BoundaryOutsideAll(']');
    assert PHONE_PATTERN[1] == Item(Digit, 2, AtMost(2));
    MarkedPass(PHONE_PATTERN, PHONE_MARKER, 1, x, m, u);
  }

  lemma MarkedEmailStage(x: string, m: string, u: string)
    requires Plain(x) && Marker(m)
    ensures EmailStage(x + (m + u)).0 == x + (m + EmailStage(u).0)
    ensures EmailStage(x + (m + u)).1 == EmailStage(u).1
  {
    EmailLength();
    BoundaryOutsideAll(']');
    assert EMAIL_PATTERN[1] == Item(Lit('@'), 1, ONE);
    MarkedPass(EMAIL_PATTERN, EMAIL_MARKER, 1, x, m, u);
    MarkedPhoneStage(x, m, Subn(EMAIL_PATTERN, EMAIL_MARKER, u).0);
  }

  lemma MarkedCpfStage(x: string, m: string, u: string)
    requires Plain(x) && Marker(m)
    ensures CpfStage(x + (m + u)).0 == x + (m + CpfStage(u).0)
    ensures CpfStage(x + (m + u)).1 == CpfStage(u).1
  {
    CpfLength();
    BoundaryOutsideAll(']');
    assert CPF_PATTERN[0] == Item(Digit, 3, AtMost(3));
    MarkedPass(CPF_PATTERN, CPF_MARKER, 0, x, m, u);
    MarkedEmailStage(x, m, Subn(CPF_PATTERN, CPF_MARKER, u).0);
  }

  // ---------------------------------------------------------------------
  // What masking leaves alone.

  /** A marker, after text without digits or `@`, is never masked again. */
  lemma MarkerInert(x: string, m: string, y: string)
    requires Plain(x) && Marker(m)
    ensures MaskText(x + (m + y)).0 == x + (m + MaskText(y).0)
    ensures MaskText(x + (m + y)).1 == MaskText(y).1
  {
    CardLength();
    BoundaryOutsideAll(']');
    assert CARD_PATTERN[0] == Item(Digit, 4, AtMost(4));
    MarkedPass(CARD_PATTERN, CARD_MARKER, 0, x, m, y);
    MarkedCpfStage(x, m, Subn(CARD_PATTERN, CARD_MARKER, y).0);
    MaskByStages(x + (m + y));
    MaskByStages(y);
  }

  /** In particular the markers the agent writes. */
  lemma MarkersInert(x: string, y: string)
    requires Plain(x)
    ensures MaskText(x + (CARD_MARKER + y)).0 == x + (CARD_MARKER + MaskText(y).0)
    ensures MaskText(x + (CARD_MARKER + y)).1 == MaskText(y).1
    ensures MaskText(x + (CPF_MARKER + y)).0 == x + (CPF_MARKER + MaskText(y).0)
    ensures MaskText(x + (CPF_MARKER + y)).1 == MaskText(y).1
    ensures MaskText(x + (EMAIL_MARKER + y)).0 == x + (EMAIL_MARKER + MaskText(y).0)
    ensures MaskText(x + (EMAIL_MARKER + y)).1 == MaskText(y).1
    ensures MaskText(x + (PHONE_MARKER + y)).0 == x + (PHONE_MARKER + MaskText(y).0)
    ensures MaskText(x + (PHONE_MARKER + y)).1 == MaskText(y).1
  {
    CardMarkerShape();
    CpfMarkerShape();
    EmailMarkerShape();
    PhoneMarkerShape();
    MarkerInert(x, CARD_MARKER, y);
    MarkerInert(x, CPF_MARKER, y);
    MarkerInert(x, EMAIL_MARKER, y);
    MarkerInert(x, PHONE_MARKER, y);
  }

  lemma PlainPass(k: nat, t: string)
    requires Plain(t) && k < |PII_PATTERNS|
    ensures MinLength(PII_PATTERNS[k].pattern) >= 1
    ensures Subn(PII_PATTERNS[k].pattern, PII_PATTERNS[k].marker, t).0 == t
    ensures Subn(PII_PATTERNS[k].pattern, PII_PATTERNS[k].marker, t).1 == 0
  {
    RulesWellFormed();
    var p := PII_PATTERNS[k].pattern;
    var m := PII_PATTERNS[k].marker;
    var j := if k < 2 then 0 else 1;
    if k == 0 {
      assert p[0] == Item(Digit, 4, AtMost(4));
    } else if k == 1 {
      assert p[0] == Item(Digit, 3, AtMost(3));
    } else if k == 2 {
      assert p[1] == Item(Lit('@'), 1, ONE);
    } else {
      assert p[1] == Item(Digit, 2, AtMost(2));
    }
    assert forall i :: 0 <= i < |t| ==> !InClass(p[j].cls, t[i]);
    PassInert(p, m, j, t, "");
    assert t + "" == t;
  }

  /** Text without digits or `@` comes back as it is, with no replacement. */
  lemma PlainUnchanged(t: string)
    requires Plain(t)
    ensures MaskText(t).0 == t
    ensures MaskText(t).1 == 0
  {
    PlainPass(0, t);
    PlainPass(1, t);
    PlainPass(2, t);
    PlainPass(3, t);
    MaskByStages(t);
  }

  // ---------------------------------------------------------------------
  // Card numbers.

  /** The card pass over a card number after text without digits. */
  lemma CardPassOnCard(x: string, ws: seq<string>, y: string)
    requires Plain(x) && CardLayout(ws)
    ensures MinLength(CARD_PATTERN) >= 1
    ensures Subn(CARD_PATTERN, CARD_MARKER, x + (Flatten(ws) + y)).0 == x + (CARD_MARKER + Subn(CARD_PATTERN, CARD_MARKER, y).0)
    ensures Subn(CARD_PATTERN, CARD_MARKER, x + (Flatten(ws) + y)).1 == Subn(CARD_PATTERN, CARD_MARKER, y).1 + 1
  {
    CardLength();
    assert CARD_PATTERN[0].cls == Digit;
    PassInertNoStart(CARD_PATTERN, CARD_MARKER, x, Flatten(ws) + y);
    CardMatch(ws, y);
    SubnAtMatch(CARD_PATTERN, CARD_MARKER, Flatten(ws), y);
  }

  /** A card number, after text without digits or `@`, becomes the card marker. */
  lemma CardIsMasked(x: string, ws: seq<string>, y: string)
    requires Plain(x) && CardLayout(ws)
    ensures MaskText(x + (Flatten(ws) + y)).0 == x + (CARD_MARKER + MaskText(y).0)
    ensures MaskText(x + (Flatten(ws) + y)).1 == MaskText(y).1 + 1
  {
    CardPassOnCard(x, ws, y);
    CardMarkerShape();
    MaskAfterMarker(x + (Flatten(ws) + y), x, CARD_MARKER, y);
  }

  // ---------------------------------------------------------------------
  // CPF numbers.

  function TotalLength(ws: seq<string>): nat {
    if ws == [] then 0 else |ws[0]| + TotalLength(ws[1..])
  }

  lemma {:induction false} FlattenLength(ws: seq<string>)
    ensures |Flatten(ws)| == TotalLength(ws)
  {
    if ws != [] {
      FlattenLength(ws[1..]);
    }
  }

  lemma SevenLength(ws: seq<string>)
    requires |ws| == 7
    ensures |Flatten(ws)| == |ws[0]| + |ws[1]| + |ws[2]| + |ws[3]| + |ws[4]| + |ws[5]| + |ws[6]|
  {
    FlattenLength(ws);
    assert ws[6..][1..] == [] && ws[5..][1..] == ws[6..] && ws[4..][1..] == ws[5..];
    assert ws[3..][1..] == ws[4..] && ws[2..][1..] == ws[3..] && ws[1..][1..] == ws[2..];
    assert TotalLength(ws[6..]) == |ws[6]|;
    assert TotalLength(ws[4..]) == |ws[4]| + |ws[5]| + |ws[6]|;
    assert TotalLength(ws[2..]) == |ws[2]| + |ws[3]| + |ws[4]| + |ws[5]| + |ws[6]|;
  }

  /** The card pass leaves a CPF number, followed by a boundary, alone: it is too short. */
  lemma CardPassOnCpf(x: string, ws: seq<string>, y: string)
    requires Plain(x) && CpfLayout(ws) && BoundaryStart(y)
    ensures MinLength(CARD_PATTERN) >= 1
    ensures Subn(CARD_PATTERN, CARD_MARKER, x + (Flatten(ws) + y)).0 == x + (Flatten(ws) + Subn(CARD_PATTERN, CARD_MARKER, y).0)
    ensures Subn(CARD_PATTERN, CARD_MARKER, x + (Flatten(ws) + y)).1 == Subn(CARD_PATTERN, CARD_MARKER, y).1
  {
    CardLength();
    SevenLength(ws);
    if y != [] {
      BoundaryOutsideAll(y[0]);
    }
    assert CARD_PATTERN[0].cls == Digit;
    PassInertNoStart(CARD_PATTERN, CARD_MARKER, x, Flatten(ws) + y);
    PassShort(CARD_PATTERN, CARD_MARKER, Flatten(ws), y);
  }

  lemma CpfPassOnCpf(x: string, ws: seq<string>, u: string)
    requires Plain(x) && CpfLayout(ws)
    ensures MinLength(CPF_PATTERN) >= 1
    ensures Subn(CPF_PATTERN, CPF_MARKER, x + (Flatten(ws) + u)).0 == x + (CPF_MARKER + Subn(CPF_PATTERN, CPF_MARKER, u).0)
    ensures Subn(CPF_PATTERN, CPF_MARKER, x + (Flatten(ws) + u)).1 == Subn(CPF_PATTERN, CPF_MARKER, u).1 + 1
  {
    CpfLength();
    assert CPF_PATTERN[0].cls == Digit;
    PassInertNoStart(CPF_PATTERN, CPF_MARKER, x, Flatten(ws) + u);
    CpfMatch(ws, u);
    SubnAtMatch(CPF_PATTERN, CPF_MARKER, Flatten(ws), u);
  }

  /**
   * A CPF number, after text without digits or `@` and before a boundary
   * character or the end, becomes the CPF marker.
   */
  lemma CpfIsMasked(x: string, ws: seq<string>, y: string)
    requires Plain(x) && CpfLayout(ws) && BoundaryStart(y)
    ensures MaskText(x + (Flatten(ws) + y)).0 == x + (CPF_MARKER + MaskText(y).0)
    ensures MaskText(x + (Flatten(ws) + y)).1 == MaskText(y).1 + 1
  {
    var c := Subn(CARD_PATTERN, CARD_MARKER, y);
    CardPassOnCpf(x, ws, y);
    CpfPassOnCpf(x, ws, c.0);
    CpfMarkerShape();
    CpfStageAfterMarker(x + (Flatten(ws) + c.0), x, CPF_MARKER, c.0);
    MaskAfterCopy(x + (Flatten(ws) + y), x + (Flatten(ws) + c.0), x, CPF_MARKER, y);
  }

  // ---------------------------------------------------------------------
  // E-mail addresses.

  /** A character that cannot continue an e-mail address leftwards. */
  predicate EmailStop(c: char) {
    !IsDigit(c) && !IsAsciiLetter(c) && c != '_' && c != '.' && c != '+' && c != '-' && c != '@'
  }

  /** The card pass copies text without digits, and a boundary after it stays at the head. */
  lemma CardSkipsDigitFree(x: string, f: string, y: string)
    requires NoneIn(Digit, x) && NoneIn(Digit, f) && BoundaryStart(y)
    ensures MinLength(CARD_PATTERN) >= 1
    ensures Subn(CARD_PATTERN, CARD_MARKER, x + (f + y)).0 == x + (f + Subn(CARD_PATTERN, CARD_MARKER, y).0)
    ensures Subn(CARD_PATTERN, CARD_MARKER, x + (f + y)).1 == Subn(CARD_PATTERN, CARD_MARKER, y).1
    ensures BoundaryStart(Subn(CARD_PATTERN, CARD_MARKER, y).0)
  {
    CardLength();
    assert CARD_PATTERN[0].cls == Digit;
    PassInertNoStart(CARD_PATTERN, CARD_MARKER, f, y);
    PassInertNoStart(CARD_PATTERN, CARD_MARKER, x, f + y);
    if y != [] {
      BoundaryOutsideAll(y[0]);
      SubnKeepsHead(CARD_PATTERN, CARD_MARKER, y);
    }
  }

  /** The same for the CPF pass. */
  lemma CpfSkipsDigitFree(x: string, f: string, y: string)
    requires NoneIn(Digit, x) && NoneIn(Digit, f) && BoundaryStart(y)
    ensures MinLength(CPF_PATTERN) >= 1
    ensures Subn(CPF_PATTERN, CPF_MARKER, x + (f + y)).0 == x + (f + Subn(CPF_PATTERN, CPF_MARKER, y).0)
    ensures Subn(CPF_PATTERN, CPF_MARKER, x + (f + y)).1 == Subn(CPF_PATTERN, CPF_MARKER, y).1
    ensures BoundaryStart(Subn(CPF_PATTERN, CPF_MARKER, y).0)
  {
    CpfLength();
    assert CPF_PATTERN[0].cls == Digit;
    PassInertNoStart(CPF_PATTERN, CPF_MARKER, f, y);
    PassInertNoStart(CPF_PATTERN, CPF_MARKER, x, f + y);
    if y != [] {
      BoundaryOutsideAll(y[0]);
      SubnKeepsHead(CPF_PATTERN, CPF_MARKER, y);
    }
  }

  /** The e-mail pass copies text without `@` that ends where an address cannot reach back into it. */
  lemma EmailSkipsPrefix(x: string, v: string)
    requires Plain(x) && (x == [] || EmailStop(x[|x| - 1]))
    ensures MinLength(EMAIL_PATTERN) >= 1
    ensures Subn(EMAIL_PATTERN, EMAIL_MARKER, x + v).0 == x + Subn(EMAIL_PATTERN, EMAIL_MARKER, v).0
    ensures Subn(EMAIL_PATTERN, EMAIL_MARKER, x + v).1 == Subn(EMAIL_PATTERN, EMAIL_MARKER, v).1
  {
    EmailLength();
    if x == [] {
      assert x + v == v;
      assert x + Subn(EMAIL_PATTERN, EMAIL_MARKER, v).0 == Subn(EMAIL_PATTERN, EMAIL_MARKER, v).0;
    } else {
      NotInEmail(x[|x| - 1]);
      assert EMAIL_PATTERN[1] == Item(Lit('@'), 1, ONE);
      PassInert(EMAIL_PATTERN, EMAIL_MARKER, 1, x, v);
    }
  }

  lemma EmailPassOnEmail(x: string, ws: seq<string>, u: string)
    requires Plain(x) && (x == [] || EmailStop(x[|x| - 1])) && EmailLayout(ws)
    requires u == [] || !InClass(EmailTail, u[0])
    ensures MinLength(EMAIL_PATTERN) >= 1
    ensures Subn(EMAIL_PATTERN, EMAIL_MARKER, x + (Flatten(ws) + u)).0 == x + (EMAIL_MARKER + Subn(EMAIL_PATTERN, EMAIL_MARKER, u).0)
    ensures Subn(EMAIL_PATTERN, EMAIL_MARKER, x + (Flatten(ws) + u)).1 == Subn(EMAIL_PATTERN, EMAIL_MARKER, u).1 + 1
  {
    EmailSkipsPrefix(x, Flatten(ws) + u);
    EmailMatch(ws, u);
    SubnAtMatch(EMAIL_PATTERN, EMAIL_MARKER, Flatten(ws), u);
  }

  /**
   * An e-mail address without digits, after text without digits or `@` that
   * does not run into it, and before a boundary character or the end,
   * becomes the e-mail marker.
   */
  lemma EmailIsMasked(x: string, ws: seq<string>, y: string)
    requires Plain(x) && (x == [] || EmailStop(x[|x| - 1]))
    requires EmailLayout(ws) && NoneIn(Digit, Flatten(ws)) && BoundaryStart(y)
    ensures MaskText(x + (Flatten(ws) + y)).0 == x + (EMAIL_MARKER + MaskText(y).0)
    ensures MaskText(x + (Flatten(ws) + y)).1 == MaskText(y).1 + 1
  {
    var f := Flatten(ws);
    var c := Subn(CARD_PATTERN, CARD_MARKER, y);
    var d := Subn(CPF_PATTERN, CPF_MARKER, c.0);
    CardSkipsDigitFree(x, f, y);
    CpfSkipsDigitFree(x, f, c.0);
    assert d.0 == [] || Boundary(d.0[0]);
    EmailPassOnEmail(x, ws, d.0);
    EmailMarkerShape();
    EmailStageAfterMarker(x + (f + d.0), x, EMAIL_MARKER, d.0);
    CpfStageAfterCopy(x + (f + c.0), x + (f + d.0), x, EMAIL_MARKER, c.0);
    MaskAfterCopy(x + (f + y), x + (f + c.0), x, EMAIL_MARKER, y);
  }

  // ---------------------------------------------------------------------
  // Phone numbers.

  /** The e-mail pass turned `t` into `v` by copying, and the phone pass turns `v` into a prefix and a marker. */
  lemma EmailStageAfterCopy(t: string, v: string, x: string, m: string, u: string)
    requires MinLength(EMAIL_PATTERN) >= 1
    requires Subn(EMAIL_PATTERN, EMAIL_MARKER, t).0 == v
    requires Subn(EMAIL_PATTERN, EMAIL_MARKER, t).1 == Subn(EMAIL_PATTERN, EMAIL_MARKER, u).1
    requires PhoneStage(v).0 == x + (m + PhoneStage(Subn(EMAIL_PATTERN, EMAIL_MARKER, u).0).0)
    requires PhoneStage(v).1 == PhoneStage(Subn(EMAIL_PATTERN, EMAIL_MARKER, u).0).1 + 1
    ensures EmailStage(t).0 == x + (m + EmailStage(u).0)
    ensures EmailStage(t).1 == EmailStage(u).1 + 1
  {
  }

  /** The phone number splits at its separator: at most four characters before it, at most ten after. */
  lemma PhoneHalves(ws: seq<string>)
    requires PhoneLayout(ws)
    ensures Flatten(ws) == Flatten(ws[..3]) + (ws[3] + Flatten(ws[4..]))
    ensures |Flatten(ws[..3])| <= 4 && |Flatten(ws[4..])| <= 10
  {
    FlattenSplit(ws, 3);
    assert ws[3..][0] == ws[3] && ws[3..][1..] == ws[4..];
    var h := ws[..3];
    assert h[2..][1..] == [] && h[1..][1..] == h[2..];
    FlattenLength(h);
    assert TotalLength(h[2..]) == |ws[2]|;
    var g := ws[4..];
    assert g[2..][1..] == [] && g[1..][1..] == g[2..];
    FlattenLength(g);
    assert TotalLength(g[2..]) == |ws[6]|;
  }

  /** The card pass leaves a phone number, followed by a boundary, alone: it is too short. */
  lemma CardPassOnPhone(x: string, ws: seq<string>, y: string)
    requires Plain(x) && PhoneLayout(ws) && BoundaryStart(y)
    ensures MinLength(CARD_PATTERN) >= 1
    ensures Subn(CARD_PATTERN, CARD_MARKER, x + (Flatten(ws) + y)).0 == x + (Flatten(ws) + Subn(CARD_PATTERN, CARD_MARKER, y).0)
    ensures Subn(CARD_PATTERN, CARD_MARKER, x + (Flatten(ws) + y)).1 == Subn(CARD_PATTERN, CARD_MARKER, y).1
    ensures BoundaryStart(Subn(CARD_PATTERN, CARD_MARKER, y).0)
  {
    CardLength();
    SevenLength(ws);
    if y != [] {
      BoundaryOutsideAll(y[0]);
      SubnKeepsHead(CARD_PATTERN, CARD_MARKER, y);
    }
    assert CARD_PATTERN[0].cls == Digit;
    PassInertNoStart(CARD_PATTERN, CARD_MARKER, x, Flatten(ws) + y);
    PassShort(CARD_PATTERN, CARD_MARKER, Flatten(ws), y);
  }

  /**
   * No CPF match starts inside a phone number whose separator is a space:
   * before the space it would have to cross it, after it there are too few
   * characters before the boundary.
   */
  lemma PhoneNotCpf(ws: seq<string>, y: string, k: nat)
    requires PhoneLayout(ws) && |ws[3]| == 1 && IsSpace(ws[3][0]) && BoundaryStart(y)
    requires k < |Flatten(ws)|
    ensures Match(CPF_PATTERN, Flatten(ws)[k..] + y) == None
  {
    CpfLength();
    PhoneHalves(ws);
    var h := Flatten(ws[..3]);
    var s := Flatten(ws)[k..] + y;
    if k <= |h| {
      assert s[|h| - k] == ws[3][0];
      NotInCpf(ws[3][0]);
      BlockedNoMatch(CPF_PATTERN, s, |h| - k);
    } else {
      if y != [] {
        BoundaryOutsideAll(y[0]);
      }
      assert Flatten(ws)[k..][0..] == Flatten(ws)[k..];
      ShortNoMatch(CPF_PATTERN, Flatten(ws)[k..], y, 0);
    }
  }

  lemma CpfPassOnPhone(x: string, ws: seq<string>, y: string)
    requires Plain(x) && PhoneLayout(ws) && |ws[3]| == 1 && IsSpace(ws[3][0]) && BoundaryStart(y)
    ensures MinLength(CPF_PATTERN) >= 1
    ensures Subn(CPF_PATTERN, CPF_MARKER, x + (Flatten(ws) + y)).0 == x + (Flatten(ws) + Subn(CPF_PATTERN, CPF_MARKER, y).0)
    ensures Subn(CPF_PATTERN, CPF_MARKER, x + (Flatten(ws) + y)).1 == Subn(CPF_PATTERN, CPF_MARKER, y).1
    ensures BoundaryStart(Subn(CPF_PATTERN, CPF_MARKER, y).0)
  {
    CpfLength();
    if y != [] {
      BoundaryOutsideAll(y[0]);
      SubnKeepsHead(CPF_PATTERN, CPF_MARKER, y);
    }
    forall k | 0 <= k < |Flatten(ws)|
      ensures Match(CPF_PATTERN, Flatten(ws)[k..] + y) == None
    {
      PhoneNotCpf(ws, y, k);
    }
    SubnInert(CPF_PATTERN, CPF_MARKER, Flatten(ws), y);
    assert CPF_PATTERN[0].cls == Digit;
    PassInertNoStart(CPF_PATTERN, CPF_MARKER, x, Flatten(ws) + y);
  }

  /** A phone number holds no `@`: every character of a match is in one of the phone classes. */
  lemma PhoneHasNoAt(ws: seq<string>)
    requires PhoneLayout(ws)
    ensures forall i :: 0 <= i < |Flatten(ws)| ==> Flatten(ws)[i] != '@'
  {
    PhoneMatch(ws, []);
    assert Flatten(ws) + [] == Flatten(ws);
    MatchInUnion(PHONE_PATTERN, Flatten(ws));
    NotInPhone('@');
  }

  lemma EmailPassOnPhone(x: string, ws: seq<string>, y: string)
    requires Plain(x) && PhoneLayout(ws) && BoundaryStart(y)
    ensures MinLength(EMAIL_PATTERN) >= 1
    ensures Subn(EMAIL_PATTERN, EMAIL_MARKER, x + (Flatten(ws) + y)).0 == x + (Flatten(ws) + Subn(EMAIL_PATTERN, EMAIL_MARKER, y).0)
    ensures Subn(EMAIL_PATTERN, EMAIL_MARKER, x + (Flatten(ws) + y)).1 == Subn(EMAIL_PATTERN, EMAIL_MARKER, y).1
    ensures BoundaryStart(Subn(EMAIL_PATTERN, EMAIL_MARKER, y).0)
  {
    EmailLength();
    if y != [] {
      BoundaryOutsideAll(y[0]);
      SubnKeepsHead(EMAIL_PATTERN, EMAIL_MARKER, y);
    }
    PhoneHasNoAt(ws);
    assert EMAIL_PATTERN[1] == Item(Lit('@'), 1, ONE);
    PassInertPair(EMAIL_PATTERN, EMAIL_MARKER, 1, x, Flatten(ws), y);
  }

  /** The phone pass copies text without digits that does not end in `(`. */
  lemma PhoneSkipsPrefix(x: string, v: string)
    requires Plain(x) && (x == [] || x[|x| - 1] != '(')
    ensures MinLength(PHONE_PATTERN) >= 1
    ensures Subn(PHONE_PATTERN, PHONE_MARKER, x + v).0 == x + Subn(PHONE_PATTERN, PHONE_MARKER, v).0
    ensures Subn(PHONE_PATTERN, PHONE_MARKER, x + v).1 == Subn(PHONE_PATTERN, PHONE_MARKER, v).1
  {
    PhoneLength();
    var p := PHONE_PATTERN;
    assert p[0] == Item(Lit('('), 0, ONE) && p[1] == Item(Digit, 2, AtMost(2));
    forall k | 0 <= k < |x|
      ensures Match(p, x[k..] + v) == None
    {
      var s := x[k..] + v;
      assert s[0] == x[k];
      if k + 1 < |x| {
        assert s[1] == x[k + 1];
      }
      NoStartOpt(p, s);
    }
    SubnInert(p, PHONE_MARKER, x, v);
  }

  lemma PhonePassOnPhone(x: string, ws: seq<string>, u: string)
    requires Plain(x) && (x == [] || x[|x| - 1] != '(') && PhoneLayout(ws)
    ensures MinLength(PHONE_PATTERN) >= 1
    ensures Subn(PHONE_PATTERN, PHONE_MARKER, x + (Flatten(ws) + u)).0 == x + (PHONE_MARKER + Subn(PHONE_PATTERN, PHONE_MARKER, u).0)
    ensures Subn(PHONE_PATTERN, PHONE_MARKER, x + (Flatten(ws) + u)).1 == Subn(PHONE_PATTERN, PHONE_MARKER, u).1 + 1
  {
    PhoneSkipsPrefix(x, Flatten(ws) + u);
    PhoneMatch(ws, u);
    SubnAtMatch(PHONE_PATTERN, PHONE_MARKER, Flatten(ws), u);
  }

  /**
   * A phone number whose area code is separated by a space, after text
   * without digits or `@` that does not end in `(`, and before a boundary
   * character or the end, becomes the phone marker.
   */
  lemma PhoneIsMasked(x: string, ws: seq<string>, y: string)
    requires Plain(x) && (x == [] || x[|x| - 1] != '(')
    requires PhoneLayout(ws) && |ws[3]| == 1 && IsSpace(ws[3][0]) && BoundaryStart(y)
    ensures MaskText(x + (Flatten(ws) + y)).0 == x + (PHONE_MARKER + MaskText(y).0)
    ensures MaskText(x + (Flatten(ws) + y)).1 == MaskText(y).1 + 1
  {
    var f := Flatten(ws);
    var c := Subn(CARD_PATTERN, CARD_MARKER, y);
    var d := Subn(CPF_PATTERN, CPF_MARKER, c.0);
    var e := Subn(EMAIL_PATTERN, EMAIL_MARKER, d.0);
    CardPassOnPhone(x, ws, y);
    CpfPassOnPhone(x, ws, c.0);
    EmailPassOnPhone(x, ws, d.0);
    PhonePassOnPhone(x, ws, e.0);
    EmailStageAfterCopy(x + (f + d.0), x + (f + e.0), x, PHONE_MARKER, d.0);
    CpfStageAfterCopy(x + (f + c.0), x + (f + d.0), x, PHONE_MARKER, c.0);
    MaskAfterCopy(x + (f + y), x + (f + c.0), x, PHONE_MARKER, y);
  }

  // ---------------------------------------------------------------------
  // Why the order of the passes matters.

  lemma FlattenSevenOf(ws: seq<string>, d: string)
    requires |ws| == 7 && d == ws[0] + (ws[1] + (ws[2] + (ws[3] + (ws[4] + (ws[5] + ws[6])))))
    ensures Flatten(ws) == d
  {
    assert ws[6..][1..] == [] && ws[5..][1..] == ws[6..] && ws[4..][1..] == ws[5..];
    assert ws[3..][1..] == ws[4..] && ws[2..][1..] == ws[3..] && ws[1..][1..] == ws[2..];
    assert Flatten(ws[6..]) == ws[6];
    assert Flatten(ws[4..]) == ws[4] + (ws[5] + ws[6]);
    assert Flatten(ws[2..]) == ws[2] + (ws[3] + (ws[4] + (ws[5] + ws[6])));
    assert ws[0..] == ws;
  }

  /** Eleven digits read as a phone number: two for the area code, five, then four. */
  lemma ElevenDigitsFitPhone(d: string, y: string)
    requires Digits(d, 11)
    ensures Match(PHONE_PATTERN, d + y) == Some(11)
  {
    var ws := ["", d[..2], "", "", d[2..7], "", d[7..]];
    assert d == "" + (d[..2] + ("" + ("" + (d[2..7] + ("" + d[7..])))));
    FlattenSevenOf(ws, d);
    PhoneMatch(ws, y);
  }

  /**
   * Eleven bare digits, which the phone pattern alone would also take, are
   * claimed by the CPF pass that runs before it and become the CPF marker.
   */
  lemma ElevenDigitsAreCpf(x: string, d: string, y: string)
    requires Plain(x) && Digits(d, 11) && BoundaryStart(y)
    ensures Match(PHONE_PATTERN, d + y) == Some(11)
    ensures MaskText(x + (d + y)).0 == x + (CPF_MARKER + MaskText(y).0)
    ensures MaskText(x + (d + y)).1 == MaskText(y).1 + 1
  {
    ElevenDigitsFitPhone(d, y);
    var ws := [d[..3], "", d[3..6], "", d[6..9], "", d[9..]];
    assert d == d[..3] + ("" + (d[3..6] + ("" + (d[6..9] + ("" + d[9..])))));
    FlattenSevenOf(ws, d);
    assert CpfLayout(ws);
    CpfIsMasked(x, ws, y);
  }
}
