/**
 * A matcher for the regular expressions the privacy agent uses. Each of them is
 * a sequence of character classes, each with a repetition count `{lo,hi}`
 * (`?` is `{0,1}`, `+` is `{1,}`). Matching follows Python's `re`: every
 * repetition is greedy and gives characters back one at a time when the rest
 * of the pattern fails. `Subn` is `re.subn`: leftmost, non-overlapping matches,
 * each replaced by a fixed marker, with the number of replacements.
 */
module PiiMatch {
  import opened Wrappers
  import opened Text

  datatype CharClass =
    | Digit          // \d
    | SpaceOrDash    // [\s-]
    | Lit(c: char)   // one literal character
    | EmailLocal     // [a-zA-Z0-9_.+-]
    | EmailDomain    // [a-zA-Z0-9-]
    | EmailTail      // [a-zA-Z0-9-.]

  predicate InClass(k: CharClass, c: char) {
    match k
    case Digit => IsDigit(c)
    case SpaceOrDash => IsSpace(c) || c == '-'
    case Lit(d) => c == d
    case EmailLocal => IsAsciiLetter(c) || IsDigit(c) || c == '_' || c == '.' || c == '+' || c == '-'
    case EmailDomain => IsAsciiLetter(c) || IsDigit(c) || c == '-'
    case EmailTail => IsAsciiLetter(c) || IsDigit(c) || c == '-' || c == '.'
  }

  datatype Bound = AtMost(n: nat) | Unbounded

  /** One quantified class: `cls{lo,hi}`. */
  datatype Item = Item(cls: CharClass, lo: nat, hi: Bound)

  type Pattern = seq<Item>

  function MinLength(p: Pattern): nat {
    if p == [] then 0 else p[0].lo + MinLength(p[1..])
  }

  /** The character occurs in some class of the pattern. */
  predicate InUnion(p: Pattern, c: char) {
    p != [] && (InClass(p[0].cls, c) || InUnion(p[1..], c))
  }

  /** Length of the longest prefix of `s` inside class `k`. */
  function Run(k: CharClass, s: string): (n: nat)
    ensures n <= |s|
    ensures forall j :: 0 <= j < n ==> InClass(k, s[j])
    ensures n == |s| || !InClass(k, s[n])
  {
    if s != [] && InClass(k, s[0]) then 1 + Run(k, s[1..]) else 0
  }

  function Cap(b: Bound, n: nat): (r: nat)
    ensures r <= n
  {
    match b
    case AtMost(m) => if m < n then m else n
    case Unbounded => n
  }

  /** The length of the match of `p` at the start of `s`, if there is one. */
  function Match(p: Pattern, s: string): (r: Option<nat>)
    ensures r.Some? ==> MinLength(p) <= r.value <= |s|
    decreases |p|, |s| + 1
  {
    if p == [] then Some(0)
    else
      var top := Cap(p[0].hi, Run(p[0].cls, s));
      if top < p[0].lo then None else Try(p, s, top)
  }

  /** Backtracking: the first item takes `c` characters, then fewer, down to `lo`. */
  function Try(p: Pattern, s: string, c: nat): (r: Option<nat>)
    requires p != [] && p[0].lo <= c <= Run(p[0].cls, s)
    ensures r.Some? ==> MinLength(p) <= r.value <= |s|
    decreases |p|, c
  {
    match Match(p[1..], s[c..])
    case Some(n) => Some(c + n)
    case None => if c == p[0].lo then None else Try(p, s, c - 1)
  }

  /** `re.subn(p, marker, s)` for a pattern that cannot match the empty string. */
  function Subn(p: Pattern, marker: string, s: string): (r: (string, nat))
    requires MinLength(p) >= 1
    ensures r.1 == 0 ==> r.0 == s
    ensures r.1 <= |s|
    decreases |s|
  {
    if s == [] then ("", 0)
    else match Match(p, s)
      case Some(n) =>
        var rest := Subn(p, marker, s[n..]);
        (marker + rest.0, rest.1 + 1)
      case None =>
        var rest := Subn(p, marker, s[1..]);
        ([s[0]] + rest.0, rest.1)
  }

  // ---------------------------------------------------------------------
  // What a match consists of.

  /** Every character of a match belongs to one of the pattern's classes. */
  lemma {:induction false} MatchInUnion(p: Pattern, s: string)
    requires Match(p, s).Some?
    ensures forall j :: 0 <= j < Match(p, s).value ==> InUnion(p, s[j])
    decreases |p|, |s| + 1
  {
    if p != [] {
      TryInUnion(p, s, Cap(p[0].hi, Run(p[0].cls, s)));
    }
  }

  lemma {:induction false} TryInUnion(p: Pattern, s: string, c: nat)
    requires p != [] && p[0].lo <= c <= Run(p[0].cls, s)
    requires Try(p, s, c).Some?
    ensures forall j :: 0 <= j < Try(p, s, c).value ==> InUnion(p, s[j])
    decreases |p|, c
  {
    var m := Match(p[1..], s[c..]);
    if m.Some? {
      MatchInUnion(p[1..], s[c..]);
      forall j | 0 <= j < c + m.value ensures InUnion(p, s[j]) {
        if j < c {
          assert InClass(p[0].cls, s[j]);
        } else {
          assert s[j] == s[c..][j - c];
        }
      }
    } else {
      TryInUnion(p, s, c - 1);
    }
  }

  /** A match holds a character of every class that the pattern requires at least once. */
  lemma {:induction false} MatchHasMandatory(p: Pattern, s: string, j: nat)
    requires j < |p| && p[j].lo >= 1
    requires Match(p, s).Some?
    ensures exists t :: 0 <= t < Match(p, s).value && InClass(p[j].cls, s[t])
    decreases |p|, |s| + 1
  {
    TryHasMandatory(p, s, Cap(p[0].hi, Run(p[0].cls, s)), j);
  }

  lemma {:induction false} TryHasMandatory(p: Pattern, s: string, c: nat, j: nat)
    requires p != [] && p[0].lo <= c <= Run(p[0].cls, s)
    requires j < |p| && p[j].lo >= 1
    requires Try(p, s, c).Some?
    ensures exists t :: 0 <= t < Try(p, s, c).value && InClass(p[j].cls, s[t])
    decreases |p|, c
  {
    var m := Match(p[1..], s[c..]);
    if m.Some? {
      if j == 0 {
        assert InClass(p[0].cls, s[0]);
      } else {
        MatchHasMandatory(p[1..], s[c..], j - 1);
        var t :| 0 <= t < m.value && InClass(p[1..][j - 1].cls, s[c..][t]);
        assert InClass(p[j].cls, s[c + t]);
      }
    } else {
      TryHasMandatory(p, s, c - 1, j);
    }
  }

  // ---------------------------------------------------------------------
  // Where a match cannot start.

  /** A pattern whose first item is required cannot match where that item's class is absent. */
  lemma NoStart(p: Pattern, s: string)
    requires p != [] && p[0].lo >= 1
    requires s == [] || !InClass(p[0].cls, s[0])
    ensures Match(p, s) == None
  {
  }

  /** A character outside every class, closer to the start than the shortest match, blocks a match. */
  lemma BlockedNoMatch(p: Pattern, s: string, q: nat)
    requires q < |s| && q < MinLength(p) && !InUnion(p, s[q])
    ensures Match(p, s) == None
  {
    if Match(p, s).Some? {
      MatchInUnion(p, s);
      assert false;
    }
  }

  /**
   * A pattern that opens with an optional character and then a required
   * class cannot match where neither reading of the first characters gets
   * into that class.
   */
  lemma NoStartOpt(p: Pattern, s: string)
    requires |p| >= 2 && p[0].lo == 0 && p[0].hi == AtMost(1) && p[1].lo >= 1
    requires s == [] || !InClass(p[1].cls, s[0])
    requires s == [] || !InClass(p[0].cls, s[0]) || |s| == 1 || !InClass(p[1].cls, s[1])
    ensures Match(p, s) == None
  {
    var top := Cap(p[0].hi, Run(p[0].cls, s));
    NoStart(p[1..], s);
    if top == 1 {
      NoStart(p[1..], s[1..]);
      assert Try(p, s, 1) == Try(p, s, 0);
    }
  }

  /**
   * Fenced: if the text after `w` starts with a character outside every class
   * of the pattern, a match starting in `w` stays in `w`; if `w` lacks a class
   * the pattern requires, no match starts in `w` at all.
   */
  lemma FencedNoMatch(p: Pattern, j: nat, w: string, y: string, k: nat)
    requires j < |p| && p[j].lo >= 1
    requires forall i :: 0 <= i < |w| ==> !InClass(p[j].cls, w[i])
    requires Fenced(p, w, y)
    requires k < |w|
    ensures Match(p, w[k..] + y) == None
  {
    var s := w[k..] + y;
    if Match(p, s).Some? {
      var n := Match(p, s).value;
      MatchInUnion(p, s);
      assert y != [] ==> s[|w| - k] == y[0];
      assert s[|w| - k - 1] == w[|w| - 1];
      assert n <= |w| - k;
      assert forall t :: 0 <= t < n ==> s[t] == w[k + t];
      assert forall t :: 0 <= t < n ==> !InClass(p[j].cls, s[t]);
      MatchHasMandatory(p, s, j);
      assert false;
    }
  }

  /**
   * A match starting in `w` cannot leave it: the character after `w`, or the
   * last character of `w`, is outside every class of the pattern.
   */
  predicate Fenced(p: Pattern, w: string, y: string) {
    (y == [] || !InUnion(p, y[0])) || (w != [] && !InUnion(p, w[|w| - 1]))
  }

  /** Fenced by the text after it, and `w` is shorter than any match. */
  lemma ShortNoMatch(p: Pattern, w: string, y: string, k: nat)
    requires |w| < MinLength(p)
    requires y == [] || !InUnion(p, y[0])
    requires k < |w|
    ensures Match(p, w[k..] + y) == None
  {
    var s := w[k..] + y;
    if Match(p, s).Some? {
      if y == [] {
        assert false;
      } else {
        assert s[|w| - k] == y[0];
        MatchInUnion(p, s);
        assert false;
      }
    }
  }

  // ---------------------------------------------------------------------
  // How `Subn` treats text in which no match starts.

  /** A prefix in which no match starts is copied unchanged. */
  lemma {:induction false} SubnInert(p: Pattern, marker: string, w: string, y: string)
    requires MinLength(p) >= 1
    requires forall k :: 0 <= k < |w| ==> Match(p, w[k..] + y) == None
    ensures Subn(p, marker, w + y).0 == w + Subn(p, marker, y).0
    ensures Subn(p, marker, w + y).1 == Subn(p, marker, y).1
    decreases |w|
  {
    if w == [] {
      assert w + y == y && w + Subn(p, marker, y).0 == Subn(p, marker, y).0;
    } else {
      assert w[0..] + y == w + y;
      assert (w + y)[1..] == w[1..] + y;
      forall k | 0 <= k < |w[1..]| ensures Match(p, w[1..][k..] + y) == None {
        assert w[1..][k..] == w[k + 1..];
      }
      SubnInert(p, marker, w[1..], y);
      assert Match(p, w + y) == None;
      var r, r1, ry := Subn(p, marker, w + y), Subn(p, marker, w[1..] + y), Subn(p, marker, y);
      assert r == ([w[0]] + r1.0, r1.1);
      assert r1 == (w[1..] + ry.0, ry.1);
      assert [w[0]] + (w[1..] + ry.0) == w + ry.0;
    }
  }

  /** A match at the start is replaced by the marker. */
  lemma SubnAtMatch(p: Pattern, marker: string, w: string, y: string)
    requires MinLength(p) >= 1
    requires Match(p, w + y) == Some(|w|)
    ensures Subn(p, marker, w + y).0 == marker + Subn(p, marker, y).0
    ensures Subn(p, marker, w + y).1 == Subn(p, marker, y).1 + 1
  {
    assert (w + y)[|w|..] == y;
  }

  /** A first character outside every class survives at the head of the result. */
  lemma SubnKeepsHead(p: Pattern, marker: string, s: string)
    requires MinLength(p) >= 1
    requires s != [] && !InUnion(p, s[0])
    ensures Subn(p, marker, s).0 != [] && Subn(p, marker, s).0[0] == s[0]
  {
    if Match(p, s).Some? {
      MatchInUnion(p, s);
    }
  }

  // ---------------------------------------------------------------------
  // Matching a text laid out item by item.

  function Flatten(ws: seq<string>): string {
    if ws == [] then "" else ws[0] + Flatten(ws[1..])
  }

  predicate WithinHi(b: Bound, n: nat) {
    match b
    case AtMost(m) => n <= m
    case Unbounded => true
  }

  predicate AtHi(b: Bound, n: nat) {
    match b
    case AtMost(m) => n == m
    case Unbounded => false
  }

  /**
   * `w` is what greedy item `it` takes when `after` follows: the count is in
   * range, every character is in the class, and either the count is the
   * maximum or the next character is outside the class.
   */
  predicate Fits(it: Item, w: string, after: string) {
    it.lo <= |w| && WithinHi(it.hi, |w|)
    && (forall i :: 0 <= i < |w| ==> InClass(it.cls, w[i]))
    && (AtHi(it.hi, |w|) || after == [] || !InClass(it.cls, after[0]))
  }

  predicate Laid(p: Pattern, ws: seq<string>, t: string)
    decreases |p|
  {
    |ws| == |p| && (p == [] || (Fits(p[0], ws[0], Flatten(ws[1..]) + t) && Laid(p[1..], ws[1..], t)))
  }

  lemma {:induction false} RunOfPrefix(k: CharClass, w: string, rest: string)
    requires forall i :: 0 <= i < |w| ==> InClass(k, w[i])
    ensures Run(k, w + rest) == |w| + Run(k, rest)
    decreases |w|
  {
    if w == [] {
      assert w + rest == rest;
    } else {
      assert (w + rest)[0] == w[0] && InClass(k, w[0]);
      assert (w + rest)[1..] == w[1..] + rest;
      assert forall i :: 0 <= i < |w[1..]| ==> InClass(k, w[1..][i]) by {
        forall i | 0 <= i < |w[1..]| ensures InClass(k, w[1..][i]) { assert w[1..][i] == w[i + 1]; }
      }
      RunOfPrefix(k, w[1..], rest);
      assert Run(k, w + rest) == 1 + Run(k, w[1..] + rest);
    }
  }

  /** A text laid out item by item is matched exactly, with no backtracking. */
  lemma {:induction false} LaidMatches(p: Pattern, ws: seq<string>, t: string)
    requires Laid(p, ws, t)
    ensures Match(p, Flatten(ws) + t) == Some(|Flatten(ws)|)
    decreases |p|
  {
    if p != [] {
      LaidHead(p, ws, t);
      LaidMatches(p[1..], ws[1..], t);
    }
  }

  /** The first item of a layout takes exactly its segment, and the rest of the text follows. */
  lemma LaidHead(p: Pattern, ws: seq<string>, t: string)
    requires p != [] && Laid(p, ws, t)
    ensures Cap(p[0].hi, Run(p[0].cls, Flatten(ws) + t)) == |ws[0]|
    ensures (Flatten(ws) + t)[|ws[0]|..] == Flatten(ws[1..]) + t
    ensures |Flatten(ws)| == |ws[0]| + |Flatten(ws[1..])|
  {
    var w, rest := ws[0], Flatten(ws[1..]) + t;
    assert Flatten(ws) + t == w + rest;
    RunOfPrefix(p[0].cls, w, rest);
  }

  // ---------------------------------------------------------------------
  // A whole pass over text in which no match can start.

  /** `w` lacks a class the pattern requires and is fenced: the pass copies it. */
  lemma PassInert(p: Pattern, marker: string, j: nat, w: string, y: string)
    requires MinLength(p) >= 1
    requires j < |p| && p[j].lo >= 1
    requires forall i :: 0 <= i < |w| ==> !InClass(p[j].cls, w[i])
    requires Fenced(p, w, y)
    ensures Subn(p, marker, w + y).0 == w + Subn(p, marker, y).0
    ensures Subn(p, marker, w + y).1 == Subn(p, marker, y).1
  {
    forall k | 0 <= k < |w| ensures Match(p, w[k..] + y) == None {
      FencedNoMatch(p, j, w, y, k);
    }
    SubnInert(p, marker, w, y);
  }

  /** No character of `w` can begin a match: the pass copies it, whatever follows. */
  lemma PassInertNoStart(p: Pattern, marker: string, w: string, y: string)
    requires MinLength(p) >= 1 && p != [] && p[0].lo >= 1
    requires forall i :: 0 <= i < |w| ==> !InClass(p[0].cls, w[i])
    ensures Subn(p, marker, w + y).0 == w + Subn(p, marker, y).0
    ensures Subn(p, marker, w + y).1 == Subn(p, marker, y).1
  {
    forall k | 0 <= k < |w| ensures Match(p, w[k..] + y) == None {
      assert (w[k..] + y)[0] == w[k];
      NoStart(p, w[k..] + y);
    }
    SubnInert(p, marker, w, y);
  }

  /** `w` is fenced by what follows and shorter than any match: the pass copies it. */
  lemma PassShort(p: Pattern, marker: string, w: string, y: string)
    requires MinLength(p) >= 1 && |w| < MinLength(p)
    requires y == [] || !InUnion(p, y[0])
    ensures Subn(p, marker, w + y).0 == w + Subn(p, marker, y).0
    ensures Subn(p, marker, w + y).1 == Subn(p, marker, y).1
  {
    forall k | 0 <= k < |w| ensures Match(p, w[k..] + y) == None {
      ShortNoMatch(p, w, y, k);
    }
    SubnInert(p, marker, w, y);
  }

  /**
   * Two stretches, neither holding a class the pattern requires, the second
   * fenced from what follows: the pass copies both.
   */
  lemma PassInertPair(p: Pattern, marker: string, j: nat, x: string, f: string, y: string)
    requires MinLength(p) >= 1
    requires j < |p| && p[j].lo >= 1
    requires forall i :: 0 <= i < |x| ==> !InClass(p[j].cls, x[i])
    requires forall i :: 0 <= i < |f| ==> !InClass(p[j].cls, f[i])
    requires Fenced(p, f, y)
    ensures Subn(p, marker, x + (f + y)).0 == x + (f + Subn(p, marker, y).0)
    ensures Subn(p, marker, x + (f + y)).1 == Subn(p, marker, y).1
  {
    PassInert(p, marker, j, f, y);
    forall k | 0 <= k < |x| ensures Match(p, x[k..] + (f + y)) == None {
      PairNoMatch(p, j, x, f, y, k);
    }
    SubnInert(p, marker, x, f + y);
  }

  /** No match starts inside `x` when neither `x` nor `f` holds a required class and `f` is fenced. */
  lemma PairNoMatch(p: Pattern, j: nat, x: string, f: string, y: string, k: nat)
    requires j < |p| && p[j].lo >= 1
    requires forall i :: 0 <= i < |x| ==> !InClass(p[j].cls, x[i])
    requires forall i :: 0 <= i < |f| ==> !InClass(p[j].cls, f[i])
    requires Fenced(p, f, y)
    requires k < |x|
    ensures Match(p, x[k..] + (f + y)) == None
  {
    LacksBoth(p[j].cls, x, f);
    assert Fenced(p, x + f, y) by {
      if f != [] {
        assert (x + f)[|x + f| - 1] == f[|f| - 1];
      }
    }
    FencedNoMatch(p, j, x + f, y, k);
    assert (x + f)[k..] + y == x[k..] + (f + y);
  }

  /** Two stretches without a class make one. */
  lemma LacksBoth(k: CharClass, x: string, f: string)
    requires forall i :: 0 <= i < |x| ==> !InClass(k, x[i])
    requires forall i :: 0 <= i < |f| ==> !InClass(k, f[i])
    ensures forall i :: 0 <= i < |x + f| ==> !InClass(k, (x + f)[i])
  {
    forall i | 0 <= i < |x + f| ensures !InClass(k, (x + f)[i]) {
      if i >= |x| {
        assert (x + f)[i] == f[i - |x|];
      }
    }
  }

  // ---------------------------------------------------------------------
  // Building a layout one item at a time.

  /** What follows segment `k`: the later segments, then `t`. */
  function After(ws: seq<string>, t: string, k: nat): string
    requires k < |ws|
  {
    Flatten(ws[k + 1..]) + t
  }

  lemma {:induction false} LaidStep(p: Pattern, ws: seq<string>, t: string, k: nat)
    requires k < |p| == |ws|
    requires Fits(p[k], ws[k], After(ws, t, k))
    requires Laid(p[k + 1..], ws[k + 1..], t)
    ensures Laid(p[k..], ws[k..], t)
  {
    assert p[k..][1..] == p[k + 1..];
    assert ws[k..][1..] == ws[k + 1..];
  }

  lemma LaidEnd(p: Pattern, ws: seq<string>, t: string)
    requires |p| == |ws|
    ensures Laid(p[|p|..], ws[|ws|..], t)
  {
    assert p[|p|..] == [];
  }

  /**
   * Segment `k` fits its item when its length is in range, its characters are
   * in the class, and it is either as long as allowed or followed by a
   * character outside the class.
   */
  lemma FitsAt(p: Pattern, ws: seq<string>, t: string, k: nat)
    requires k < |p| == |ws|
    requires p[k].lo <= |ws[k]| && WithinHi(p[k].hi, |ws[k]|)
    requires forall i :: 0 <= i < |ws[k]| ==> InClass(p[k].cls, ws[k][i])
    requires AtHi(p[k].hi, |ws[k]|)
             || (k + 1 < |ws| && ws[k + 1] != [] && !InClass(p[k].cls, ws[k + 1][0]))
             || (k + 1 == |ws| && (t == [] || !InClass(p[k].cls, t[0])))
    ensures Fits(p[k], ws[k], After(ws, t, k))
  {
    if k + 1 < |ws| {
      assert ws[k + 1..][1..] == ws[k + 2..];
      assert Flatten(ws[k + 1..]) == ws[k + 1] + Flatten(ws[k + 2..]);
      if ws[k + 1] != [] {
        assert After(ws, t, k)[0] == ws[k + 1][0];
      }
    } else {
      assert ws[k + 1..] == [];
      assert After(ws, t, k) == t;
    }
  }

  lemma AfterNext(ws: seq<string>, t: string, k: nat)
    requires k + 1 < |ws|
    ensures After(ws, t, k) == ws[k + 1] + After(ws, t, k + 1)
  {
    assert ws[k + 1..][1..] == ws[k + 2..];
  }

  /** An optional character (absent or present) followed by text that does not continue its class. */
  lemma FitsOptAfter(p: Pattern, ws: seq<string>, t: string, k: nat)
    requires k < |p| == |ws| && p[k].lo == 0 && p[k].hi == AtMost(1)
    requires ws[k] == [] || (|ws[k]| == 1 && InClass(p[k].cls, ws[k][0]))
    requires After(ws, t, k) == [] || !InClass(p[k].cls, After(ws, t, k)[0])
    ensures Fits(p[k], ws[k], After(ws, t, k))
  {
  }

  lemma {:induction false} FlattenSplit(ws: seq<string>, k: nat)
    requires k <= |ws|
    ensures Flatten(ws) == Flatten(ws[..k]) + Flatten(ws[k..])
  {
    if k > 0 {
      assert ws[..k][1..] == ws[1..][..k - 1];
      assert ws[k..] == ws[1..][k - 1..];
      FlattenSplit(ws[1..], k - 1);
    } else {
      assert ws[..k] == [] && ws[k..] == ws;
    }
  }
}
