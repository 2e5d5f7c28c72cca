/**
 * The equation front-end: turns `dX = (expr)*dt + (expr)*dW1 + (expr)*dJ1(0.3)`
 * into a Levy process with one coefficient and one incrementor per term.
 *
 * Coefficients are kept as their expression text; whether the expression
 * library accepts a text, and how a numeric parameter parses, are parameters
 * (`Foreign`), since both are foreign code. The regular expressions of the
 * source are written out as string predicates.
 */
module EquationParser {
  import opened Wrappers
  import Levy

  /** Everything the parser learns from foreign code. */
  datatype Foreign = Foreign(parsesExpression: string -> bool, parseFloat: string -> Option<real>)

  datatype ParseError =
    | NoEquations       // the equation list is empty
    | NoProcessName     // no `d<name>` at the start
    | NoEquals          // no `=` in the equation
    | SlicePanic        // an opened coefficient parenthesis is never closed: the slice panics
    | NoIncrementor     // no `d[tWJ]...` after the coefficient
    | BadExpression     // the expression library refuses the coefficient text
    | JumpNeedsLambda   // a `dJ` term without a numeric parameter
    | UnsupportedTerm   // a `dt...` name other than `dt`
    | LengthMismatch    // refused by `LevyProcess::new`

  /** What `parse_single_term` builds for the incrementor of a term. */
  datatype IncrementorSpec = Time | Wiener(name: string) | Jump(name: string, lambda: real)

  /** One accepted term: the coefficient's expression text and its incrementor. */
  datatype Term = Term(coefficient: string, incrementor: IncrementorSpec)

  type Process = Levy.LevyProcess<string, IncrementorSpec>

  // ---------------------------------------------------------------------------
  // Characters and trimming

  /** Unicode White_Space, which both `str::trim` and the regex class `\s` use. */
  predicate IsWhitespace(c: char) {
    ('\t' <= c <= '\r') || c == ' ' || c == '\U{0085}' || c == '\U{00A0}' || c == '\U{1680}'
    || ('\U{2000}' <= c <= '\U{200A}') || c == '\U{2028}' || c == '\U{2029}'
    || c == '\U{202F}' || c == '\U{205F}' || c == '\U{3000}'
  }

  /** The class `[a-zA-Z0-9_]`. */
  predicate IsNameChar(c: char) {
    ('a' <= c <= 'z') || ('A' <= c <= 'Z') || ('0' <= c <= '9') || c == '_'
  }

  /** `str::trim_start`. */
  function TrimStart(s: string): (r: string)
    ensures |r| <= |s|
  {
    if s == [] || !IsWhitespace(s[0]) then s else TrimStart(s[1..])
  }

  /** Exactly the leading whitespace is removed. */
  lemma {:induction false} TrimStartSpec(s: string)
    ensures var r := TrimStart(s);
      r == s[|s| - |r|..] && (forall k :: 0 <= k < |s| - |r| ==> IsWhitespace(s[k]))
      && (r == [] || !IsWhitespace(r[0]))
  {
    if s != [] && IsWhitespace(s[0]) {
      TrimStartSpec(s[1..]);
    }
  }

  /** `str::trim_end`. */
  function TrimEnd(s: string): (r: string)
    ensures |r| <= |s|
  {
    if s == [] || !IsWhitespace(s[|s| - 1]) then s else TrimEnd(s[..|s| - 1])
  }

  /** Exactly the trailing whitespace is removed. */
  lemma {:induction false} TrimEndSpec(s: string)
    ensures var r := TrimEnd(s);
      r == s[..|r|] && (forall k :: |r| <= k < |s| ==> IsWhitespace(s[k]))
      && (r == [] || !IsWhitespace(r[|r| - 1]))
  {
    if s != [] && IsWhitespace(s[|s| - 1]) {
      TrimEndSpec(s[..|s| - 1]);
    }
  }

  /** `str::trim`. */
  function Trim(s: string): string {
    TrimEnd(TrimStart(s))
  }

  /** `s.trim().is_empty()`. */
  predicate IsBlank(s: string) {
    Trim(s) == []
  }

  lemma BlankIffAllWhitespace(s: string)
    ensures IsBlank(s) <==> forall k :: 0 <= k < |s| ==> IsWhitespace(s[k])
  {
    TrimStartSpec(s);
    TrimEndSpec(TrimStart(s));
  }

  // ---------------------------------------------------------------------------
  // The process name: `^\s*d([a-zA-Z0-9_]+)`

  /** Length of the longest run of name characters starting at `i`. */
  function NameRun(s: string, i: nat): (n: nat)
    requires i <= |s|
    ensures i + n <= |s|
    decreases |s| - i
  {
    if i < |s| && IsNameChar(s[i]) then 1 + NameRun(s, i + 1) else 0
  }

  /** The run is made of name characters and cannot be extended. */
  lemma {:induction false} NameRunSpec(s: string, i: nat)
    requires i <= |s|
    ensures var n := NameRun(s, i);
      (forall k :: i <= k < i + n ==> IsNameChar(s[k])) && (i + n == |s| || !IsNameChar(s[i + n]))
    decreases |s| - i
  {
    if i < |s| && IsNameChar(s[i]) {
      NameRunSpec(s, i + 1);
    }
  }

  /** Number of whitespace characters the name pattern skips. */
  function LeadingSpace(s: string): (w: nat)
    ensures w <= |s|
  {
    |s| - |TrimStart(s)|
  }

  /** The skipped characters are whitespace and the next one is not. */
  lemma LeadingSpaceSpec(s: string)
    ensures var w := LeadingSpace(s);
      (forall k :: 0 <= k < w ==> IsWhitespace(s[k])) && (w == |s| || !IsWhitespace(s[w]))
  {
    TrimStartSpec(s);
    var r := TrimStart(s);
    if r != [] {
      assert r[0] == s[|s| - |r|];
    }
  }

  /**
   * The process name: after the leading whitespace and a `d`, the longest run
   * of name characters; there is no name unless that run is non-empty.
   */
  function ProcessName(eq: string): (r: Option<string>)
    ensures r.Some? ==> |r.value| > 0 && forall k :: 0 <= k < |r.value| ==> IsNameChar(r.value[k])
  {
    var w := LeadingSpace(eq);
    if w + 1 < |eq| && eq[w] == 'd' && IsNameChar(eq[w + 1]) then
      NameRunSpec(eq, w + 1);
      Some(eq[w + 1..w + 1 + NameRun(eq, w + 1)])
    else
      None
  }

  /**
   * There is a name exactly when a `d` and a name character follow the
   * leading whitespace; the name is then the longest run of name characters.
   */
  lemma ProcessNameSpec(eq: string)
    ensures var w := LeadingSpace(eq);
      ProcessName(eq).Some? <==> w + 1 < |eq| && eq[w] == 'd' && IsNameChar(eq[w + 1])
    ensures ProcessName(eq).Some? ==> var w := LeadingSpace(eq); var name := ProcessName(eq).value;
      var n := |name|;
      n > 0 && w + 1 + n <= |eq| && eq[w + 1..w + 1 + n] == name
      && (forall k :: 0 <= k < n ==> IsNameChar(name[k]))
      && (w + 1 + n == |eq| || !IsNameChar(eq[w + 1 + n]))
  {
    var w := LeadingSpace(eq);
    if w + 1 < |eq| {
      NameRunSpec(eq, w + 1);
      var n := NameRun(eq, w + 1);
      if eq[w] == 'd' && IsNameChar(eq[w + 1]) {
        var name := eq[w + 1..w + 1 + n];
        assert forall k :: 0 <= k < n ==> name[k] == eq[w + 1 + k];
      }
    }
  }

  // ---------------------------------------------------------------------------
  // The right-hand side: `equation.split('=').nth(1)`, trimmed

  /** Index of the first `c` in `s`, or `|s|` when there is none. */
  function IndexOf(s: string, c: char): (i: nat)
    ensures i <= |s|
  {
    if s == [] then 0 else if s[0] == c then 0 else 1 + IndexOf(s[1..], c)
  }

  /** The index is that of the first `c`. */
  lemma {:induction false} IndexOfSpec(s: string, c: char)
    ensures var i := IndexOf(s, c);
      (i < |s| ==> s[i] == c) && (forall k :: 0 <= k < i ==> s[k] != c)
  {
    if s != [] && s[0] != c {
      IndexOfSpec(s[1..], c);
    }
  }

  lemma IndexOfConcat(a: string, b: string, c: char)
    requires c !in a
    ensures IndexOf(a + b, c) == |a| + IndexOf(b, c)
  {
    var j := IndexOf(b, c);
    IndexOfSpec(b, c);
    IndexOfSpec(a + b, c);
    if j < |b| {
      assert (a + b)[|a| + j] == b[j];
    }
    forall k | |a| <= k < |a| + j ensures (a + b)[k] != c {
      assert (a + b)[k] == b[k - |a|];
    }
    forall k | 0 <= k < |a| ensures (a + b)[k] != c {
      assert (a + b)[k] == a[k];
    }
  }

  /** `split('=').nth(1)`, trimmed: there is a right-hand side exactly when there is an `=`. */
  function Rhs(eq: string): (r: Option<string>)
    ensures r.None? <==> '=' !in eq
  {
    IndexOfSpec(eq, '=');
    var i := IndexOf(eq, '=');
    if i == |eq| then None
    else
      var field := eq[i + 1..];
      Some(Trim(field[..IndexOf(field, '=')]))
  }

  /** There is a right-hand side exactly when there is an `=`, and it holds none. */
  lemma RhsSpec(eq: string)
    ensures Rhs(eq).None? <==> '=' !in eq
    ensures Rhs(eq).Some? ==> '=' !in Rhs(eq).value
  {
    IndexOfSpec(eq, '=');
    var i := IndexOf(eq, '=');
    if i < |eq| {
      var field := eq[i + 1..];
      IndexOfSpec(field, '=');
      var piece := field[..IndexOf(field, '=')];
      assert '=' !in piece;
      TrimKeepsAbsent(piece, '=');
    }
  }

  /** Trimming only removes characters. */
  lemma TrimKeepsAbsent(s: string, c: char)
    requires c !in s
    ensures c !in Trim(s)
  {
    TrimStartSpec(s);
    var a := TrimStart(s);
    forall k | 0 <= k < |a| ensures a[k] != c {
      assert a[k] == s[|s| - |a| + k];
    }
    TrimEndSpec(a);
    var b := TrimEnd(a);
    forall k | 0 <= k < |b| ensures b[k] != c {
      assert b[k] == a[k];
    }
  }

  /** The right-hand side is the text between the first and the second `=`. */
  lemma RhsIsSecondField(lhs: string, mid: string, tail: string)
    requires '=' !in lhs && '=' !in mid
    ensures Rhs(lhs + "=" + mid) == Some(Trim(mid))
    ensures Rhs(lhs + "=" + mid + "=" + tail) == Some(Trim(mid))
  {
    IndexOfConcat(lhs, "=" + mid, '=');
    assert lhs + "=" + mid == lhs + ("=" + mid);
    assert (lhs + "=" + mid)[|lhs| + 1..] == mid;
    IndexOfConcat(mid, [], '=');
    assert mid + [] == mid;
    var e := lhs + "=" + mid + "=" + tail;
    IndexOfConcat(lhs, "=" + mid + "=" + tail, '=');
    assert e == lhs + ("=" + mid + "=" + tail);
    assert e[|lhs| + 1..] == mid + ("=" + tail);
    IndexOfConcat(mid, "=" + tail, '=');
    assert (mid + ("=" + tail))[..|mid|] == mid;
  }

  // ---------------------------------------------------------------------------
  // Splitting the right-hand side on `+` at parenthesis depth 0

  function Weight(c: char): int {
    if c == '(' then 1 else if c == ')' then -1 else 0
  }

  /** The scanner's `paren_depth` after reading `s`: opened minus closed parentheses. */
  function Depth(s: string): int {
    if s == [] then 0 else Depth(s[..|s| - 1]) + Weight(s[|s| - 1])
  }

  lemma {:induction false} DepthAppend(a: string, b: string)
    ensures Depth(a + b) == Depth(a) + Depth(b)
    decreases |b|
  {
    if b != [] {
      var b' := b[..|b| - 1];
      assert (a + b)[..|a + b| - 1] == a + b';
      DepthAppend(a, b');
    } else {
      assert a + b == a;
    }
  }

  lemma DepthPrefix(s: string, i: nat)
    requires i < |s|
    ensures Depth(s[..i + 1]) == Depth(s[..i]) + Weight(s[i])
  {
    assert s[..i + 1][..i] == s[..i];
  }

  /**
   * The terms the scanner delimits in `s`, blank ones included: the text is
   * cut at every `+` read while the depth is 0.
   */
  function Pieces(s: string): (r: seq<string>)
    ensures |r| >= 1
  {
    if s == [] then [""]
    else
      var init := Pieces(s[..|s| - 1]);
      var c := s[|s| - 1];
      if c == '+' && Depth(s[..|s| - 1]) == 0 then init + [""]
      else init[..|init| - 1] + [init[|init| - 1] + [c]]
  }

  /** The pieces joined back with `+`. */
  function Join(ps: seq<string>): string {
    if |ps| == 0 then []
    else if |ps| == 1 then ps[0]
    else Join(ps[..|ps| - 1]) + "+" + ps[|ps| - 1]
  }

  lemma {:induction false} JoinExtendLast(ps: seq<string>, c: char)
    requires |ps| >= 1
    ensures Join(ps[..|ps| - 1] + [ps[|ps| - 1] + [c]]) == Join(ps) + [c]
  {
    var qs := ps[..|ps| - 1] + [ps[|ps| - 1] + [c]];
    if |ps| > 1 {
      assert qs[..|qs| - 1] == ps[..|ps| - 1];
    }
  }

  /** Splitting loses nothing: the pieces joined with `+` give back the text. */
  lemma {:induction false} JoinPieces(s: string)
    ensures Join(Pieces(s)) == s
  {
    if s != [] {
      var s' := s[..|s| - 1];
      var init := Pieces(s');
      JoinPieces(s');
      if s[|s| - 1] == '+' && Depth(s') == 0 {
        assert (init + [""])[..|init|] == init;
      } else {
        JoinExtendLast(init, s[|s| - 1]);
      }
      assert s' + [s[|s| - 1]] == s;
    }
  }

  /** The number of `+` characters read at depth 0. */
  function TopLevelPluses(s: string): nat {
    if s == [] then 0
    else TopLevelPluses(s[..|s| - 1]) + (if s[|s| - 1] == '+' && Depth(s[..|s| - 1]) == 0 then 1 else 0)
  }

  /** Exactly the top-level `+` characters cut the text: one more piece than cuts. */
  lemma {:induction false} PiecesCount(s: string)
    ensures |Pieces(s)| == TopLevelPluses(s) + 1
  {
    if s != [] {
      PiecesCount(s[..|s| - 1]);
    }
  }

  /** A `+` inside parentheses stays in its term: without top-level `+`, one piece. */
  lemma NestedPlusStays(s: string)
    requires TopLevelPluses(s) == 0
    ensures Pieces(s) == [s]
  {
    PiecesCount(s);
    JoinPieces(s);
  }

  function AllButLast<T>(s: seq<T>): seq<T>
    requires |s| >= 1
  {
    s[..|s| - 1]
  }

  lemma {:induction false} ClosedPiecesArePrefix(s: string, i: nat)
    requires i <= |s|
    ensures AllButLast(Pieces(s[..i])) <= Pieces(s)
    decreases |s| - i
  {
    if i == |s| {
      assert s[..i] == s;
    } else {
      ClosedPiecesArePrefix(s, i + 1);
      assert s[..i + 1][..i] == s[..i];
      var a := Pieces(s[..i]);
      var b := Pieces(s[..i + 1]);
      assert AllButLast(a) <= AllButLast(b);
      assert AllButLast(b) <= b;
    }
  }

  // ---------------------------------------------------------------------------
  // One term: the coefficient is the first balanced `(...)`

  /**
   * The coefficient scan of `parse_single_term` as a function of its state:
   * from position `i` with depth `depth` and `coeff_start == start`, the final
   * `(coeff_start, coeff_end)`; `coeff_end` stays 0 when no group closes.
   */
  function CoeffScan(t: string, i: nat, depth: int, start: nat): (r: (nat, nat))
    requires start <= i <= |t|
    ensures r.0 <= |t|
    ensures r.1 == 0 || i <= r.1 < |t|
    decreases |t| - i
  {
    if i == |t| then (start, 0)
    else if t[i] == '(' then CoeffScan(t, i + 1, depth + 1, if depth == 0 then i + 1 else start)
    else if t[i] == ')' then
      if depth - 1 == 0 then (start, i) else CoeffScan(t, i + 1, depth - 1, start)
    else CoeffScan(t, i + 1, depth, start)
  }

  /** `t[r.0..r.1]` is a balanced coefficient right inside a `(` and its matching `)`, or `r.1` is 0. */
  predicate Delimits(t: string, r: (nat, nat)) {
    r.1 > 0 ==> 0 < r.0 <= r.1 < |t| && t[r.0 - 1] == '(' && t[r.1] == ')' && Depth(t[r.0..r.1]) == 0
  }

  /**
   * When a group closes, the coefficient lies strictly between a `(` and the
   * `)` that brings the depth back to 0, and is itself balanced; otherwise
   * `coeff_end` is 0, and without any `(` nothing is extracted.
   */
  lemma {:induction false} CoeffScanSound(t: string, i: nat, depth: int, start: nat)
    requires start <= i <= |t| && depth == Depth(t[..i])
    requires start > 0 ==> t[start - 1] == '(' && Depth(t[..start]) == 1
    requires depth >= 1 ==> start > 0
    ensures Delimits(t, CoeffScan(t, i, depth, start))
    decreases |t| - i
  {
    if i < |t| {
      DepthPrefix(t, i);
      if t[i] == ')' && depth == 1 {
        assert CoeffScan(t, i, depth, start) == (start, i);
        DepthBetween(t, start, i);
      } else {
        var depth' := depth + Weight(t[i]);
        var start' := if t[i] == '(' && depth == 0 then i + 1 else start;
        CoeffScanStep(t, i, depth, start);
        CoeffScanSound(t, i + 1, depth', start');
      }
    }
  }

  /** Between two points at depth 1 the text is balanced. */
  lemma DepthBetween(t: string, start: nat, i: nat)
    requires start <= i <= |t| && Depth(t[..start]) == 1 && Depth(t[..i]) == 1
    ensures Depth(t[start..i]) == 0
  {
    assert t[..start] + t[start..i] == t[..i];
    DepthAppend(t[..start], t[start..i]);
  }

  /** One character read without closing the group. */
  lemma CoeffScanStep(t: string, i: nat, depth: int, start: nat)
    requires start <= i < |t| && !(t[i] == ')' && depth == 1)
    ensures CoeffScan(t, i, depth, start)
      == CoeffScan(t, i + 1, depth + Weight(t[i]), if t[i] == '(' && depth == 0 then i + 1 else start)
  {
  }

  lemma {:induction false} CoeffScanNoParen(t: string, i: nat, depth: int)
    requires i <= |t| && depth <= 0
    requires forall k :: i <= k < |t| ==> t[k] != '('
    ensures CoeffScan(t, i, depth, 0) == (0, 0)
    decreases |t| - i
  {
    if i < |t| {
      CoeffScanNoParen(t, i + 1, if t[i] == ')' then depth - 1 else depth);
    }
  }

  lemma CoeffScanFromStart(t: string)
    ensures Delimits(t, CoeffScan(t, 0, 0, 0))
    ensures '(' !in t ==> CoeffScan(t, 0, 0, 0) == (0, 0)
    ensures var r := CoeffScan(t, 0, 0, 0); r.0 > r.1 ==> r.1 == 0
  {
    assert t[..0] == [];
    CoeffScanSound(t, 0, 0, 0);
    if '(' !in t {
      CoeffScanNoParen(t, 0, 0);
    }
  }

  // ---------------------------------------------------------------------------
  // The incrementor: `^.*?(d[tWJ][a-zA-Z0-9_]*)(?:\(([^)]+)\))?`

  predicate IsIncStart(s: string, p: nat) {
    p + 1 < |s| && s[p] == 'd' && (s[p + 1] == 't' || s[p + 1] == 'W' || s[p + 1] == 'J')
  }

  /**
   * The leftmost start of `d[tWJ]` that the lazy `.*?` can reach; `.` does not
   * match a line feed, so the search stops at the first `\n`.
   */
  function IncSearch(s: string, p: nat): (r: Option<nat>)
    requires p <= |s|
    ensures r.Some? ==> p <= r.value < |s| && IsIncStart(s, r.value)
    decreases |s| - p
  {
    if p == |s| then None
    else if IsIncStart(s, p) then Some(p)
    else if s[p] == '\n' then None
    else IncSearch(s, p + 1)
  }

  /** The start found is the leftmost one, and none is found only past a line feed. */
  lemma {:induction false} IncSearchSpec(s: string, p: nat)
    requires p <= |s|
    ensures var r := IncSearch(s, p);
      r.Some? ==> forall q :: p <= q < r.value ==> !IsIncStart(s, q) && s[q] != '\n'
    ensures IncSearch(s, p).None? ==>
      forall q :: p <= q < |s| && IsIncStart(s, q) ==> exists k :: p <= k < q && s[k] == '\n'
    decreases |s| - p
  {
    if p < |s| && !IsIncStart(s, p) && s[p] != '\n' {
      IncSearchSpec(s, p + 1);
    }
  }

  /** The optional `(param)` right after the name: at least one character, up to the first `)`. */
  function Param(s: string, a: nat): (r: Option<string>)
    requires a <= |s|
    ensures r.Some? ==> |r.value| > 0 && ')' !in r.value
  {
    if a < |s| && s[a] == '(' then
      IndexOfSpec(s[a + 1..], ')');
      var close := IndexOf(s[a + 1..], ')');
      if 0 < close < |s| - a - 1 then Some(s[a + 1..a + 1 + close]) else None
    else None
  }

  /**
   * A parameter is the non-empty text between the `(` at `a` and the first
   * `)` after it; without both there is none.
   */
  lemma ParamSpec(s: string, a: nat)
    requires a <= |s|
    ensures var r := Param(s, a);
      r.Some? ==> var n := |r.value|;
        n > 0 && a + n + 1 < |s| && s[a] == '(' && s[a + 1..a + 1 + n] == r.value
        && s[a + 1 + n] == ')' && ')' !in r.value
    ensures Param(s, a).None? <==> !(a < |s| && s[a] == '(' && 0 < IndexOf(s[a + 1..], ')') < |s| - a - 1)
  {
    if a < |s| {
      var t := s[a + 1..];
      IndexOfSpec(t, ')');
      var close := IndexOf(t, ')');
      if s[a] == '(' && 0 < close < |s| - a - 1 {
        var v := s[a + 1..a + 1 + close];
        assert t[close] == s[a + 1 + close];
        assert forall k :: 0 <= k < close ==> v[k] == t[k];
      }
    }
  }

  /** The incrementor name and its optional parameter, when the pattern matches. */
  function FindIncrementor(rest: string): (r: Option<(string, Option<string>)>)
    ensures r.Some? ==> IsIncStart(r.value.0, 0)
    ensures r.Some? && r.value.1.Some? ==> |r.value.1.value| > 0 && ')' !in r.value.1.value
  {
    match IncSearch(rest, 0)
    case None => None
    case Some(p) =>
      var a := p + 2 + NameRun(rest, p + 2);
      Some((rest[p..a], Param(rest, a)))
  }

  /** The name found is `d`, one of `t`, `W`, `J`, then name characters; none is found only without a start. */
  lemma FindIncrementorSpec(rest: string)
    ensures var r := FindIncrementor(rest);
      r.Some? ==> var name := r.value.0;
        |name| >= 2 && name[0] == 'd' && (name[1] == 't' || name[1] == 'W' || name[1] == 'J')
        && (forall k :: 2 <= k < |name| ==> IsNameChar(name[k]))
    ensures FindIncrementor(rest).None? <==> IncSearch(rest, 0).None?
  {
    if IncSearch(rest, 0).Some? {
      var p := IncSearch(rest, 0).value;
      NameRunSpec(rest, p + 2);
      var a := p + 2 + NameRun(rest, p + 2);
      var name := rest[p..a];
      assert forall k :: 2 <= k < |name| ==> name[k] == rest[p + k];
    }
  }

  predicate StartsWith(s: string, prefix: string) {
    |prefix| <= |s| && s[..|prefix|] == prefix
  }

  /** The `match term_name` of `parse_single_term`. */
  function Classify(name: string, param: Option<string>, parseFloat: string -> Option<real>): (r: Result<IncrementorSpec, ParseError>)
    ensures r.Ok? ==> (r.value.Time? <==> name == "dt")
    ensures r.Ok? && !r.value.Time? ==> r.value.name == name
    ensures r.Ok? && r.value.Jump? ==> param.Some? && parseFloat(param.value) == Some(r.value.lambda)
    ensures r.Err? ==> r.error == JumpNeedsLambda || r.error == UnsupportedTerm
  {
    if name == "dt" then Ok(Time)
    else if StartsWith(name, "dW") then Ok(Wiener(name))
    else if StartsWith(name, "dJ") then
      if param.Some? && parseFloat(param.value).Some? then Ok(Jump(name, parseFloat(param.value).value))
      else Err(JumpNeedsLambda)
    else Err(UnsupportedTerm)
  }

  /**
   * `dt` is the time increment, other `dW…` names are Wiener increments and
   * `dJ…` names are jumps that need a rate parsing as a float; anything else
   * is unsupported.
   */
  lemma ClassifySpec(name: string, param: Option<string>, parseFloat: string -> Option<real>)
    ensures var r := Classify(name, param, parseFloat);
      (r == Ok(Time) <==> name == "dt")
      && ((r.Ok? && r.value.Wiener?) <==> name != "dt" && StartsWith(name, "dW"))
      && (r.Ok? && r.value.Wiener? ==> r.value.name == name)
      && ((r.Ok? && r.value.Jump?) <==> StartsWith(name, "dJ") && param.Some? && parseFloat(param.value).Some?)
      && (r.Ok? && r.value.Jump? ==> r.value.name == name && Some(r.value.lambda) == parseFloat(param.value))
      && (r == Err(JumpNeedsLambda) <==> StartsWith(name, "dJ") && !(param.Some? && parseFloat(param.value).Some?))
      && (r == Err(UnsupportedTerm) <==> name != "dt" && !StartsWith(name, "dW") && !StartsWith(name, "dJ"))
  {
    assert name == "dt" ==> name[1] == 't' && !StartsWith(name, "dW") && !StartsWith(name, "dJ");
  }

  /** What `parse_single_term` produces for a non-blank term. */
  function SingleTerm(term: string, foreign: Foreign): (r: Result<Term, ParseError>)
    requires !IsBlank(term)
    ensures r.Ok? ==> foreign.parsesExpression(r.value.coefficient)
  {
    var t := Trim(term);
    var bounds := CoeffScan(t, 0, 0, 0);
    if bounds.0 > bounds.1 then Err(SlicePanic) else TermAfterScan(t, bounds.0, bounds.1, foreign)
  }

  /** The rest of `parse_single_term` once the coefficient is delimited by `t[start..end]`. */
  function TermAfterScan(t: string, start: nat, end: nat, foreign: Foreign): (r: Result<Term, ParseError>)
    requires start <= end < |t|
    ensures r.Ok? ==> foreign.parsesExpression(r.value.coefficient)
  {
    var expression := Trim(t[start..end]);
    var rest := Trim(t[end + 1..]);
    match FindIncrementor(rest)
    case None => Err(NoIncrementor)
    case Some((name, param)) =>
      if !foreign.parsesExpression(expression) then Err(BadExpression)
      else match Classify(name, param, foreign.parseFloat)
        case Err(err) => Err(err)
        case Ok(inc) => Ok(Term(expression, inc))
  }

  /** The coefficient scan of `parse_single_term`, character by character. */
  method ScanCoefficient(t: string) returns (start: nat, end: nat)
    ensures (start, end) == CoeffScan(t, 0, 0, 0)
  {
    var depth: int := 0;
    var i: nat := 0;
    start, end := 0, 0;
    var closed := false;
    while i < |t| && !closed
      invariant start <= i <= |t|
      invariant !closed ==> end == 0 && CoeffScan(t, i, depth, start) == CoeffScan(t, 0, 0, 0)
      invariant closed ==> (start, end) == CoeffScan(t, 0, 0, 0)
      decreases |t| - i, !closed
    {
      var ch := t[i];
      if ch == '(' {
        if depth == 0 {
          start := i + 1;
        }
        depth := depth + 1;
        i := i + 1;
      } else if ch == ')' {
        depth := depth - 1;
        if depth == 0 {
          end := i;
          closed := true;
        } else {
          i := i + 1;
        }
      } else {
        i := i + 1;
      }
    }
  }

  /** `parse_single_term`: the coefficient scan, then the incrementor pattern and its classification. */
  method ParseSingleTerm(term: string, foreign: Foreign) returns (r: Result<Term, ParseError>)
    requires !IsBlank(term)
    ensures r == SingleTerm(term, foreign)
  {
    var t := Trim(term);
    var start, end := ScanCoefficient(t);
    if start > end {
      return Err(SlicePanic);
    }
    r := TermAfterScan(t, start, end, foreign);
  }

  // ---------------------------------------------------------------------------
  // All terms of a right-hand side

  /** The non-blank pieces parsed in order; the first failing piece decides the error. */
  function ParsePieces(ps: seq<string>, foreign: Foreign): (r: Result<seq<Term>, ParseError>)
    ensures r.Ok? ==> |r.value| <= |ps|
    ensures r.Ok? ==> forall k :: 0 <= k < |r.value| ==> foreign.parsesExpression(r.value[k].coefficient)
  {
    if ps == [] then Ok([])
    else
      match ParsePieces(ps[..|ps| - 1], foreign)
      case Err(err) => Err(err)
      case Ok(terms) =>
        var last := ps[|ps| - 1];
        if IsBlank(last) then Ok(terms)
        else match SingleTerm(last, foreign)
          case Err(err) => Err(err)
          case Ok(term) => Ok(terms + [term])
  }

  lemma {:induction false} ParsePiecesKeepsError(ps: seq<string>, qs: seq<string>, foreign: Foreign, err: ParseError)
    requires ps <= qs && ParsePieces(ps, foreign) == Err(err)
    ensures ParsePieces(qs, foreign) == Err(err)
    decreases |qs|
  {
    if |qs| > |ps| {
      assert ps <= qs[..|qs| - 1];
      ParsePiecesKeepsError(ps, qs[..|qs| - 1], foreign, err);
    } else {
      assert ps == qs;
    }
  }

  /** Blank pieces vanish and every other piece gives one term, in order. */
  lemma {:induction false} ParsePiecesOk(ps: seq<string>, foreign: Foreign)
    requires ParsePieces(ps, foreign).Ok?
    ensures |ParsePieces(ps, foreign).value| == |NonBlank(ps)|
    ensures forall k :: 0 <= k < |NonBlank(ps)| ==>
      SingleTerm(NonBlank(ps)[k], foreign) == Ok(ParsePieces(ps, foreign).value[k])
  {
    if ps != [] {
      var init, last := ps[..|ps| - 1], ps[|ps| - 1];
      ParsePiecesOk(init, foreign);
      var a := ParsePieces(init, foreign).value;
      if !IsBlank(last) {
        var term := SingleTerm(last, foreign).value;
        assert ParsePieces(ps, foreign).value == a + [term];
        assert NonBlank(ps) == NonBlank(init) + [last];
      } else {
        assert NonBlank(ps) == NonBlank(init);
      }
    }
  }

  function NonBlank(ps: seq<string>): (r: seq<string>)
    ensures forall k :: 0 <= k < |r| ==> !IsBlank(r[k])
  {
    if ps == [] then []
    else NonBlank(ps[..|ps| - 1]) + (if IsBlank(ps[|ps| - 1]) then [] else [ps[|ps| - 1]])
  }

  lemma PiecesStep(s: string, i: nat)
    requires i < |s|
    ensures var p := Pieces(s[..i]);
      Pieces(s[..i + 1]) ==
        if s[i] == '+' && Depth(s[..i]) == 0 then p + [""] else AllButLast(p) + [p[|p| - 1] + [s[i]]]
  {
    assert s[..i + 1][..i] == s[..i];
  }

  lemma ParsePiecesSnoc(ps: seq<string>, p: string, terms: seq<Term>, foreign: Foreign)
    requires ParsePieces(ps, foreign) == Ok(terms)
    ensures IsBlank(p) ==> ParsePieces(ps + [p], foreign) == Ok(terms)
    ensures !IsBlank(p) && SingleTerm(p, foreign).Err? ==> ParsePieces(ps + [p], foreign) == Err(SingleTerm(p, foreign).error)
    ensures !IsBlank(p) && SingleTerm(p, foreign).Ok? ==> ParsePieces(ps + [p], foreign) == Ok(terms + [SingleTerm(p, foreign).value])
  {
    assert (ps + [p])[..|ps|] == ps;
  }

  /**
   * The splitting loop read forward: from position `i` with the given depth,
   * current term and closed terms, the pieces it ends with.
   */
  function SplitFrom(s: string, i: nat, depth: int, current: string, closed: seq<string>): seq<string>
    requires i <= |s|
    decreases |s| - i
  {
    if i == |s| then closed + [current]
    else if s[i] == '+' && depth == 0 then SplitFrom(s, i + 1, depth, [], closed + [current])
    else SplitFrom(s, i + 1, depth + Weight(s[i]), current + [s[i]], closed)
  }

  /** Reading forward from any prefix's state gives the pieces of the whole text. */
  lemma {:induction false} SplitFromPieces(s: string, i: nat)
    requires i <= |s|
    ensures var p := Pieces(s[..i]);
      SplitFrom(s, i, Depth(s[..i]), p[|p| - 1], AllButLast(p)) == Pieces(s)
    decreases |s| - i
  {
    var p := Pieces(s[..i]);
    if i == |s| {
      assert s[..i] == s;
      assert AllButLast(p) + [p[|p| - 1]] == p;
    } else {
      PiecesState(s, i);
      DepthPrefix(s, i);
      SplitFromPieces(s, i + 1);
      var q := Pieces(s[..i + 1]);
      assert SplitFrom(s, i, Depth(s[..i]), p[|p| - 1], AllButLast(p))
        == SplitFrom(s, i + 1, Depth(s[..i + 1]), q[|q| - 1], AllButLast(q));
    }
  }

  /** The closed pieces and the current piece after one more character. */
  lemma PiecesState(s: string, i: nat)
    requires i < |s|
    ensures var p := Pieces(s[..i]); var q := Pieces(s[..i + 1]);
      if s[i] == '+' && Depth(s[..i]) == 0 then
        AllButLast(q) == AllButLast(p) + [p[|p| - 1]] && q[|q| - 1] == []
      else
        AllButLast(q) == AllButLast(p) && q[|q| - 1] == p[|p| - 1] + [s[i]]
  {
    PiecesStep(s, i);
    var p := Pieces(s[..i]);
    var q := Pieces(s[..i + 1]);
    if s[i] == '+' && Depth(s[..i]) == 0 {
      assert AllButLast(q) == AllButLast(p) + [p[|p| - 1]];
    } else {
      assert AllButLast(q) == AllButLast(p);
    }
  }

  /** Closed pieces are never taken back. */
  lemma {:induction false} SplitFromExtends(s: string, i: nat, depth: int, current: string, closed: seq<string>)
    requires i <= |s|
    ensures closed <= SplitFrom(s, i, depth, current, closed)
    decreases |s| - i
  {
    if i < |s| {
      if s[i] == '+' && depth == 0 {
        SplitFromExtends(s, i + 1, depth, [], closed + [current]);
      } else {
        SplitFromExtends(s, i + 1, depth + Weight(s[i]), current + [s[i]], closed);
      }
    }
  }

  /** A top-level `+` closes the current piece: its parse extends the terms, or decides the error. */
  lemma SplitCloses(rhs: string, i: nat, current: string, closed: seq<string>, terms: seq<Term>, foreign: Foreign)
    requires i < |rhs| && rhs[i] == '+'
    requires SplitFrom(rhs, i, 0, current, closed) == Pieces(rhs)
    requires ParsePieces(closed, foreign) == Ok(terms)
    ensures SplitFrom(rhs, i + 1, 0, [], closed + [current]) == Pieces(rhs)
    ensures IsBlank(current) ==> ParsePieces(closed + [current], foreign) == Ok(terms)
    ensures !IsBlank(current) && SingleTerm(current, foreign).Ok? ==>
      ParsePieces(closed + [current], foreign) == Ok(terms + [SingleTerm(current, foreign).value])
    ensures !IsBlank(current) && SingleTerm(current, foreign).Err? ==>
      ParsePieces(Pieces(rhs), foreign) == Err(SingleTerm(current, foreign).error)
  {
    ParsePiecesSnoc(closed, current, terms, foreign);
    if !IsBlank(current) && SingleTerm(current, foreign).Err? {
      SplitFromExtends(rhs, i + 1, 0, [], closed + [current]);
      ParsePiecesKeepsError(closed + [current], Pieces(rhs), foreign, SingleTerm(current, foreign).error);
    }
  }

  /**
   * The splitting loop of `parse_equation`: terms are parsed as soon as a
   * top-level `+` ends them, blank ones are skipped, and the trailing term is
   * parsed after the loop.
   */
  method ParseTerms(rhs: string, foreign: Foreign) returns (r: Result<seq<Term>, ParseError>)
    ensures r == ParsePieces(Pieces(rhs), foreign)
  {
    var terms: seq<Term> := [];
    var current: string := [];
    var depth: int := 0;
    var i := 0;
    ghost var closed: seq<string> := [];
    SplitFromPieces(rhs, 0);
    assert rhs[..0] == [];
    while i < |rhs|
      invariant 0 <= i <= |rhs|
      invariant SplitFrom(rhs, i, depth, current, closed) == Pieces(rhs)
      invariant ParsePieces(closed, foreign) == Ok(terms)
    {
      var ch := rhs[i];
      if ch == '+' && depth == 0 {
        SplitCloses(rhs, i, current, closed, terms, foreign);
        if !IsBlank(current) {
          var term := ParseSingleTerm(current, foreign);
          if term.Err? {
            return Err(term.error);
          }
          terms := terms + [term.value];
        }
        closed := closed + [current];
        current := [];
      } else {
        if ch == '(' {
          depth := depth + 1;
        } else if ch == ')' {
          depth := depth - 1;
        }
        current := current + [ch];
      }
      i := i + 1;
    }
    ParsePiecesSnoc(closed, current, terms, foreign);
    if !IsBlank(current) {
      var term := ParseSingleTerm(current, foreign);
      if term.Err? {
        return Err(term.error);
      }
      terms := terms + [term.value];
    }
    r := Ok(terms);
  }

  // ---------------------------------------------------------------------------
  // Equations

  function Coefficients(terms: seq<Term>): (r: seq<string>)
    ensures |r| == |terms| && forall k :: 0 <= k < |terms| ==> r[k] == terms[k].coefficient
  {
    seq(|terms|, k requires 0 <= k < |terms| => terms[k].coefficient)
  }

  function Incrementors(terms: seq<Term>): (r: seq<IncrementorSpec>)
    ensures |r| == |terms| && forall k :: 0 <= k < |terms| ==> r[k] == terms[k].incrementor
  {
    seq(|terms|, k requires 0 <= k < |terms| => terms[k].incrementor)
  }

  /** What `parse_equation` returns for one equation. */
  function Equation(eq: string, foreign: Foreign): (r: Result<Process, ParseError>)
    ensures r.Ok? ==> r.value.Valid() && ProcessName(eq) == Some(r.value.name) && '=' in eq
    ensures r.Ok? ==> forall k :: 0 <= k < |r.value.coefficients| ==> foreign.parsesExpression(r.value.coefficients[k])
  {
    match ProcessName(eq)
    case None => Err(NoProcessName)
    case Some(name) =>
      match Rhs(eq)
      case None => Err(NoEquals)
      case Some(rhs) =>
        match ParsePieces(Pieces(rhs), foreign)
        case Err(err) => Err(err)
        case Ok(terms) => Assemble(name, terms)
  }

  /** `LevyProcess::new` on the name and the coefficients and incrementors of the terms. */
  function Assemble(name: string, terms: seq<Term>): Result<Process, ParseError> {
    match Levy.New(name, Coefficients(terms), Incrementors(terms))
    case Err(_) => Err(LengthMismatch)
    case Ok(process) => Ok(process)
  }

  /** One coefficient and one incrementor per term, so `LevyProcess::new` never refuses. */
  lemma AssembleShape(name: string, terms: seq<Term>)
    ensures Assemble(name, terms).Ok?
    ensures var p := Assemble(name, terms).value;
      p.Valid() && p.name == name && |p.coefficients| == |terms|
      && forall k :: 0 <= k < |terms| ==> p.coefficients[k] == terms[k].coefficient && p.incrementors[k] == terms[k].incrementor
  {
  }

  /**
   * A parsed equation carries the equation's name, one coefficient and one
   * incrementor per non-blank term in order, and `LevyProcess::new` never
   * refuses it.
   */
  lemma EquationShape(eq: string, foreign: Foreign)
    ensures Equation(eq, foreign) != Err(LengthMismatch)
    ensures Equation(eq, foreign).Err? <==>
      ProcessName(eq).None? || Rhs(eq).None? || ParsePieces(Pieces(Rhs(eq).value), foreign).Err?
    ensures Equation(eq, foreign).Ok? ==>
      var p := Equation(eq, foreign).value; var ps := NonBlank(Pieces(Rhs(eq).value));
      p.Valid() && p.name == ProcessName(eq).value && |p.coefficients| == |ps|
      && forall k :: 0 <= k < |ps| ==>
        SingleTerm(ps[k], foreign) == Ok(Term(p.coefficients[k], p.incrementors[k]))
  {
    if ProcessName(eq).Some? && Rhs(eq).Some? {
      var name, ps := ProcessName(eq).value, Pieces(Rhs(eq).value);
      var parsed := ParsePieces(ps, foreign);
      if parsed.Ok? {
        ParsePiecesOk(ps, foreign);
        AssembleShape(name, parsed.value);
        assert Equation(eq, foreign) == Assemble(name, parsed.value);
      } else {
        assert Equation(eq, foreign) == Err(parsed.error);
        ParsePiecesNotLength(ps, foreign);
      }
    }
  }

  /** No term of a right-hand side fails with `LengthMismatch`. */
  lemma {:induction false} ParsePiecesNotLength(ps: seq<string>, foreign: Foreign)
    ensures ParsePieces(ps, foreign) != Err(LengthMismatch)
  {
    if ps != [] {
      ParsePiecesNotLength(ps[..|ps| - 1], foreign);
      var last := ps[|ps| - 1];
      if !IsBlank(last) {
        SingleTermNotLength(last, foreign);
      }
    }
  }

  /** A single term fails for its own reasons, never with `LengthMismatch`. */
  lemma SingleTermNotLength(term: string, foreign: Foreign)
    requires !IsBlank(term)
    ensures SingleTerm(term, foreign) != Err(LengthMismatch)
  {
  }

  /** `parse_equation`. */
  method ParseEquation(eq: string, foreign: Foreign) returns (r: Result<Process, ParseError>)
    ensures r == Equation(eq, foreign)
  {
    var name := ProcessName(eq);
    if name.None? {
      return Err(NoProcessName);
    }
    var rhs := Rhs(eq);
    if rhs.None? {
      return Err(NoEquals);
    }
    var terms := ParseTerms(rhs.value, foreign);
    if terms.Err? {
      return Err(terms.error);
    }
    var process := Levy.New(name.value, Coefficients(terms.value), Incrementors(terms.value));
    if process.Err? {
      return Err(LengthMismatch);
    }
    r := Ok(process.value);
    assert r == Assemble(name.value, terms.value);
  }

  /** `parse_equation` as a function value, for the list of equations. */
  function EquationOf(foreign: Foreign): string -> Result<Process, ParseError> {
    eq => Equation(eq, foreign)
  }

  /** Every equation parsed in order by `parse`; the first failing equation decides the error. */
  function ParseAll(eqs: seq<string>, parse: string -> Result<Process, ParseError>): (r: Result<seq<Process>, ParseError>)
    ensures r.Ok? ==> |r.value| == |eqs|
  {
    if eqs == [] then Ok([])
    else
      match ParseAll(eqs[..|eqs| - 1], parse)
      case Err(err) => Err(err)
      case Ok(ps) =>
        match parse(eqs[|eqs| - 1])
        case Err(err) => Err(err)
        case Ok(p) => Ok(ps + [p])
  }

  /** What `parse_equations` returns. */
  function Equations(eqs: seq<string>, foreign: Foreign): (r: Result<seq<Process>, ParseError>)
    ensures eqs == [] ==> r == Err(NoEquations)
    ensures r.Ok? ==> |r.value| == |eqs|
  {
    if eqs == [] then Err(NoEquations) else ParseAll(eqs, EquationOf(foreign))
  }

  /**
   * Success gives one process per equation, in order; failure is the error of
   * the first equation that fails.
   */
  lemma {:induction false} ParseAllSpec(eqs: seq<string>, parse: string -> Result<Process, ParseError>)
    ensures ParseAll(eqs, parse).Ok? <==> forall k :: 0 <= k < |eqs| ==> parse(eqs[k]).Ok?
    ensures ParseAll(eqs, parse).Ok? ==> var ps := ParseAll(eqs, parse).value;
      |ps| == |eqs| && forall k :: 0 <= k < |eqs| ==> parse(eqs[k]) == Ok(ps[k])
    ensures ParseAll(eqs, parse).Err? ==>
      exists k :: 0 <= k < |eqs| && parse(eqs[k]) == Err(ParseAll(eqs, parse).error)
        && forall j :: 0 <= j < k ==> parse(eqs[j]).Ok?
  {
    if eqs != [] {
      var init := eqs[..|eqs| - 1];
      ParseAllSpec(init, parse);
      assert forall k :: 0 <= k < |init| ==> init[k] == eqs[k];
      if ParseAll(init, parse).Err? {
        var k :| 0 <= k < |init| && parse(init[k]) == Err(ParseAll(init, parse).error)
          && forall j :: 0 <= j < k ==> parse(init[j]).Ok?;
        assert parse(eqs[k]) == Err(ParseAll(eqs, parse).error);
      } else if parse(eqs[|eqs| - 1]).Err? {
        assert forall j :: 0 <= j < |eqs| - 1 ==> parse(eqs[j]).Ok?;
      }
    }
  }

  /** An error in a prefix of the list is the error of the whole list. */
  lemma {:induction false} ParseAllPrefixError(eqs: seq<string>, i: nat, parse: string -> Result<Process, ParseError>)
    requires i <= |eqs| && ParseAll(eqs[..i], parse).Err?
    ensures ParseAll(eqs, parse) == ParseAll(eqs[..i], parse)
    decreases |eqs| - i
  {
    if i == |eqs| {
      assert eqs[..i] == eqs;
    } else {
      assert eqs[..i + 1][..i] == eqs[..i];
      ParseAllPrefixError(eqs, i + 1, parse);
    }
  }

  /**
   * `parse_equations` refuses an empty list; otherwise success gives one
   * process per equation, in order, and failure is the error of the first
   * equation that fails.
   */
  lemma EquationsSpec(eqs: seq<string>, foreign: Foreign)
    ensures Equations(eqs, foreign).Err? <==> eqs == [] || exists k :: 0 <= k < |eqs| && Equation(eqs[k], foreign).Err?
    ensures eqs == [] ==> Equations(eqs, foreign) == Err(NoEquations)
    ensures Equations(eqs, foreign).Ok? ==> var ps := Equations(eqs, foreign).value;
      |ps| == |eqs| && forall k :: 0 <= k < |eqs| ==> Equation(eqs[k], foreign) == Ok(ps[k])
    ensures eqs != [] && Equations(eqs, foreign).Err? ==>
      exists k :: 0 <= k < |eqs| && Equation(eqs[k], foreign) == Err(Equations(eqs, foreign).error)
        && forall j :: 0 <= j < k ==> Equation(eqs[j], foreign).Ok?
  {
    var parse := EquationOf(foreign);
    ParseAllSpec(eqs, parse);
    assert forall e :: parse(e) == Equation(e, foreign);
  }

  /** One more equation parsed: the list's result follows. */
  lemma ParseAllStep(eqs: seq<string>, i: nat, parse: string -> Result<Process, ParseError>, processes: seq<Process>)
    requires i < |eqs| && ParseAll(eqs[..i], parse) == Ok(processes)
    ensures parse(eqs[i]).Ok? ==> ParseAll(eqs[..i + 1], parse) == Ok(processes + [parse(eqs[i]).value])
    ensures parse(eqs[i]).Err? ==> ParseAll(eqs, parse) == Err(parse(eqs[i]).error)
  {
    assert eqs[..i + 1][..i] == eqs[..i];
    if parse(eqs[i]).Err? {
      ParseAllPrefixError(eqs, i + 1, parse);
    }
  }

  /** `parse_equations`: refuses an empty list, then parses each equation in turn. */
  method ParseEquations(eqs: seq<string>, foreign: Foreign) returns (r: Result<seq<Process>, ParseError>)
    ensures r == Equations(eqs, foreign)
  {
    if eqs == [] {
      return Err(NoEquations);
    }
    ghost var parse := EquationOf(foreign);
    var processes: seq<Process> := [];
    var i := 0;
    while i < |eqs|
      invariant 0 <= i <= |eqs|
      invariant ParseAll(eqs[..i], parse) == Ok(processes)
    {
      var p := ParseEquation(eqs[i], foreign);
      assert parse(eqs[i]) == p;
      ParseAllStep(eqs, i, parse, processes);
      if p.Err? {
        return Err(p.error);
      }
      processes := processes + [p.value];
      i := i + 1;
    }
    assert eqs[..i] == eqs;
    r := Ok(processes);
  }
}
