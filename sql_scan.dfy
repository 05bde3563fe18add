/**
  The two hand-written scanners of js/er-diagram/parser.js: the search for the parenthesis
  that closes a `CREATE TABLE` body (lines 23-39) and `splitByComma` (lines 101-123). Both run
  the same three-state machine over the text: outside a string, inside a string opened by `'`
  or `"`, and the escape rule that a quote preceded by a backslash does not close the string.
  Outside strings `(` and `)` move a depth counter.
*/
module SqlScan {
  import opened Wrappers
  import opened Text

  /** The machine's state: the parenthesis depth, whether a string is open and its quote. */
  datatype ScanState = ScanState(depth: int, inStr: bool, quote: char)

  /** The state before a `CREATE TABLE` body: depth 1, just after the opening parenthesis. */
  const BodyInit := ScanState(1, false, ' ')

  /** The state before `splitByComma` reads its first character. */
  const SplitInit := ScanState(0, false, ' ')

  /** The character before index i is a backslash (`s[i - 1] === '\\'`; false at index 0). */
  predicate Escaped(s: string, i: nat) {
    0 < i <= |s| && s[i - 1] == '\\'
  }

  /** One character of either scanner. */
  function Step(st: ScanState, escaped: bool, c: char): ScanState {
    if st.inStr then
      if c == st.quote && !escaped then st.(inStr := false) else st
    else if c == '\'' || c == '"' then ScanState(st.depth, true, c)
    else if c == '(' then st.(depth := st.depth + 1)
    else if c == ')' then st.(depth := st.depth - 1)
    else st
  }

  /** The state after reading s[b..k] from st0. */
  function Run(s: string, b: nat, k: nat, st0: ScanState): ScanState
    requires b <= k <= |s|
    decreases k
  {
    if k == b then st0 else Step(Run(s, b, k - 1, st0), Escaped(s, k - 1), s[k - 1])
  }

  /** Inside a string whose every quote character is escaped nothing changes: parentheses in
      the string leave the depth alone and an escaped quote does not close it. */
  lemma {:induction false} QuotedTextInert(s: string, b: nat, k: nat, m: nat, st0: ScanState)
    requires b <= k <= m <= |s|
    requires Run(s, b, k, st0).inStr
    requires forall j :: k <= j < m && s[j] == Run(s, b, k, st0).quote ==> Escaped(s, j)
    ensures Run(s, b, m, st0) == Run(s, b, k, st0)
    decreases m
  {
    if m > k {
      QuotedTextInert(s, b, k, m - 1, st0);
    }
  }

  // ---------------------------------------------------------------------------------------
  // The body of a CREATE TABLE statement

  /** Where the scan started in state st at index i stops: the index of the character that
      brings the depth to 0, or None when the text ends first. */
  function BodyEndFrom(s: string, i: nat, st: ScanState): (r: Option<nat>)
    requires i <= |s|
    ensures r.Some? ==> i <= r.value < |s|
    decreases |s| - i
  {
    if i == |s| then None
    else
      var st' := Step(st, Escaped(s, i), s[i]);
      if st'.depth > 0 then BodyEndFrom(s, i + 1, st') else Some(i)
  }

  /** The index of the parenthesis that closes a body starting at b. */
  function BodyEnd(s: string, b: nat): (r: Option<nat>)
    requires b <= |s|
    ensures r.Some? ==> b <= r.value < |s|
  {
    BodyEndFrom(s, b, BodyInit)
  }

  /** One step moves the depth by at most one, and lowers it only at a `)` outside a string. */
  lemma StepDepth(st: ScanState, e: bool, c: char)
    ensures st.depth - 1 <= Step(st, e, c).depth <= st.depth + 1
    ensures Step(st, e, c).depth < st.depth ==> c == ')' && !st.inStr
  {
  }

  lemma {:induction false} BodyEndFromSpec(s: string, b: nat, i: nat)
    requires b <= i <= |s|
    requires forall k :: b <= k <= i ==> Run(s, b, k, BodyInit).depth > 0
    ensures match BodyEndFrom(s, i, Run(s, b, i, BodyInit))
      case Some(e) =>
        i <= e < |s| && Run(s, b, e + 1, BodyInit).depth == 0
        && forall k :: b <= k <= e ==> Run(s, b, k, BodyInit).depth > 0
      case None =>
        forall k :: b <= k <= |s| ==> Run(s, b, k, BodyInit).depth > 0
    decreases |s| - i
  {
    if i < |s| {
      var st' := Step(Run(s, b, i, BodyInit), Escaped(s, i), s[i]);
      assert st' == Run(s, b, i + 1, BodyInit);
      if st'.depth > 0 {
        BodyEndFromSpec(s, b, i + 1);
      } else {
        StepDepth(Run(s, b, i, BodyInit), Escaped(s, i), s[i]);
      }
    }
  }

  /** The body ends at the first character where the depth returns to 0, and there is no end
      exactly when the depth stays positive to the end of the text. */
  lemma BodyEndSpec(s: string, b: nat)
    requires b <= |s|
    ensures match BodyEnd(s, b)
      case Some(e) =>
        b <= e < |s| && s[e] == ')' && !Run(s, b, e, BodyInit).inStr
        && Run(s, b, e, BodyInit).depth == 1 && Run(s, b, e + 1, BodyInit).depth == 0
        && forall k :: b <= k <= e ==> Run(s, b, k, BodyInit).depth > 0
      case None =>
        forall k :: b <= k <= |s| ==> Run(s, b, k, BodyInit).depth > 0
  {
    BodyEndFromSpec(s, b, b);
    if BodyEnd(s, b).Some? {
      var e := BodyEnd(s, b).value;
      StepDepth(Run(s, b, e, BodyInit), Escaped(s, e), s[e]);
    }
  }

  /** The scan of parser.js:23-37: returns whether the depth came back to 0 and the index it
      stopped at, which is then the closing parenthesis. */
  method ScanBody(s: string, b: nat) returns (balanced: bool, i: nat)
    requires b <= |s|
    ensures balanced <==> BodyEnd(s, b).Some?
    ensures balanced ==> BodyEnd(s, b) == Some(i) && b <= i < |s| && s[i] == ')'
  {
    var depth := 1;
    i := b;
    var inStr := false;
    var strCh := ' ';
    while i < |s| && depth > 0
      invariant b <= i <= |s|
      invariant depth >= 0
      invariant depth > 0 ==> BodyEndFrom(s, i, ScanState(depth, inStr, strCh)) == BodyEnd(s, b)
      invariant depth == 0 ==> i < |s| && BodyEnd(s, b) == Some(i)
      decreases |s| - i, depth
    {
      var ch := s[i];
      if inStr {
        if ch == strCh && !(i > 0 && s[i - 1] == '\\') { inStr := false; }
      } else {
        if ch == '\'' || ch == '"' { inStr := true; strCh := ch; }
        else if ch == '(' { depth := depth + 1; }
        else if ch == ')' { depth := depth - 1; }
      }
      if depth > 0 { i := i + 1; }
    }
    balanced := depth == 0;
    if balanced { BodyEndSpec(s, b); }
  }

  // ---------------------------------------------------------------------------------------
  // splitByComma

  /** A comma read at depth 0 outside any string: where `splitByComma` cuts. */
  predicate IsSeparator(s: string, k: nat)
    requires k < |s|
  {
    var st := Run(s, 0, k, SplitInit);
    s[k] == ',' && !st.inStr && st.depth == 0
  }

  /** The finished parts and the part being built. */
  datatype Pieces = Pieces(parts: seq<string>, current: string)

  /** The pieces after reading s[..k]. */
  function PiecesAt(s: string, k: nat): Pieces
    requires k <= |s|
  {
    if k == 0 then Pieces([], [])
    else
      var p := PiecesAt(s, k - 1);
      if IsSeparator(s, k - 1) then Pieces(p.parts + [p.current], [])
      else Pieces(p.parts, p.current + [s[k - 1]])
  }

  /** What `splitByComma` returns: every segment, the last one only when it is not blank. */
  function CommaParts(s: string): seq<string> {
    var p := PiecesAt(s, |s|);
    if Trim(p.current) != [] then p.parts + [p.current] else p.parts
  }

  /** parser.js:101-123. */
  method SplitByComma(str: string) returns (parts: seq<string>)
    ensures parts == CommaParts(str)
  {
    parts := [];
    var depth := 0;
    var current := "";
    var inString := false;
    var stringChar := ' ';
    for i := 0 to |str|
      invariant Pieces(parts, current) == PiecesAt(str, i)
      invariant ScanState(depth, inString, stringChar) == Run(str, 0, i, SplitInit)
    {
      var ch := str[i];
      if inString {
        current := current + [ch];
        if ch == stringChar && !(i > 0 && str[i - 1] == '\\') { inString := false; }
        continue;
      }
      if ch == '\'' || ch == '"' {
        inString := true;
        stringChar := ch;
        current := current + [ch];
        continue;
      }
      if ch == '(' { depth := depth + 1; }
      else if ch == ')' { depth := depth - 1; }
      if ch == ',' && depth == 0 {
        parts := parts + [current];
        current := "";
      } else {
        current := current + [ch];
      }
    }
    if Trim(current) != [] { parts := parts + [current]; }
  }

  lemma {:induction false} JoinSnoc(ps: seq<string>, x: string, sep: string)
    ensures Join(ps + [x], sep) == if ps == [] then x else Join(ps, sep) + sep + x
    decreases |ps|
  {
    if |ps| > 1 {
      assert (ps + [x])[1..] == ps[1..] + [x];
      JoinSnoc(ps[1..], x, sep);
    } else if |ps| == 1 {
      assert (ps + [x])[1..] == [x];
    }
  }

  /** The pieces, joined back with commas, give the text read so far. */
  /** One character read: cutting at a comma or extending the current part appends exactly
      that character to the joined pieces. */
  lemma PiecesStep(parts: seq<string>, current: string, c: char, cut: bool)
    ensures Join(if cut then parts + [current] + [[]] else parts + [current + [c]], ",")
         == Join(parts + [current], ",") + (if cut then "," else [c])
  {
    JoinSnoc(parts, current, ",");
    if cut {
      JoinSnoc(parts + [current], [], ",");
    } else {
      JoinSnoc(parts, current + [c], ",");
    }
  }

  lemma {:induction false} PiecesJoin(s: string, k: nat)
    requires k <= |s|
    ensures var p := PiecesAt(s, k); Join(p.parts + [p.current], ",") == s[..k]
  {
    if k > 0 {
      PiecesJoin(s, k - 1);
      var p := PiecesAt(s, k - 1);
      PiecesStep(p.parts, p.current, s[k - 1], IsSeparator(s, k - 1));
      assert s[..k] == s[..k - 1] + [s[k - 1]];
    }
  }

  /** Joining the parts with commas gives back the input; a dropped trailing segment is blank
      and is what follows the last comma. */
  lemma CommaPartsRoundTrip(s: string)
    ensures var rest := PiecesAt(s, |s|).current;
      if Trim(rest) != [] then Join(CommaParts(s), ",") == s
      else Trim(rest) == [] && Join(CommaParts(s) + [rest], ",") == s
  {
    PiecesJoin(s, |s|);
    assert s[..|s|] == s;
  }

  /** The positions of the joining commas in `Join(ps, ",")` followed by one more piece. */
  function JoinOffsets(ps: seq<string>): set<nat> {
    if ps == [] then {} else JoinOffsets(ps[..|ps| - 1]) + {|Join(ps, ",")|}
  }

  /** The separators among the first k characters. */
  function SeparatorsBefore(s: string, k: nat): set<nat>
    requires k <= |s|
  {
    if k == 0 then {} else SeparatorsBefore(s, k - 1) + (if IsSeparator(s, k - 1) then {k - 1} else {})
  }

  lemma {:induction false} SeparatorsBeforeMembers(s: string, k: nat)
    requires k <= |s|
    ensures forall j: nat :: j in SeparatorsBefore(s, k) <==> j < k && IsSeparator(s, j)
  {
    if k > 0 { SeparatorsBeforeMembers(s, k - 1); }
  }

  lemma {:induction false} SeparatorsUpTo(s: string, k: nat)
    requires k <= |s|
    ensures SeparatorsBefore(s, k) == JoinOffsets(PiecesAt(s, k).parts)
  {
    if k > 0 {
      SeparatorsUpTo(s, k - 1);
      var p := PiecesAt(s, k - 1);
      if IsSeparator(s, k - 1) {
        PiecesJoin(s, k - 1);
        var ps := p.parts + [p.current];
        assert ps[..|ps| - 1] == p.parts;
      }
    }
  }

  /** The text is cut exactly at its separators: the commas that join the segments are the
      commas read at depth 0 outside strings, and no others. */
  lemma SeparatorsAreJoins(s: string)
    ensures forall j: nat :: j in JoinOffsets(PiecesAt(s, |s|).parts) ==> j < |s| && IsSeparator(s, j)
    ensures forall j: nat :: j < |s| && IsSeparator(s, j) ==> j in JoinOffsets(PiecesAt(s, |s|).parts)
  {
    SeparatorsUpTo(s, |s|);
    SeparatorsBeforeMembers(s, |s|);
  }
}
