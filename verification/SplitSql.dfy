/** splitSQL: the schema text cut at ";\n" and trimmed. */
module SplitSql {

  /** Unicode White_Space, as strings.TrimSpace has it. */
  predicate IsSpace(c: char) {
    var n := c as int;
    0x09 <= n <= 0x0D || n == 0x20 || n == 0x85 || n == 0xA0 || n == 0x1680 || 0x2000 <= n <= 0x200A
    || n == 0x2028 || n == 0x2029 || n == 0x202F || n == 0x205F || n == 0x3000
  }

  function TrimLeft(s: string): string {
    if s != "" && IsSpace(s[0]) then TrimLeft(s[1..]) else s
  }

  function TrimRight(s: string): string {
    if s != "" && IsSpace(s[|s| - 1]) then TrimRight(s[..|s| - 1]) else s
  }

  function Trim(s: string): string {
    TrimRight(TrimLeft(s))
  }

  predicate SepAt(s: string, i: nat) {
    i + 1 < |s| && s[i] == ';' && s[i + 1] == '\n'
  }

  predicate HasSep(s: string) {
    exists i: nat :: i < |s| && SepAt(s, i)
  }

  /** The first separator at or after `i`, or the end. */
  function FirstSep(s: string, i: nat): (k: nat)
    requires i <= |s|
    ensures i <= k <= |s|
    ensures k < |s| ==> SepAt(s, k)
    ensures forall j | i <= j < k :: !SepAt(s, j)
    decreases |s| - i
  {
    if i == |s| then i else if SepAt(s, i) then i else FirstSep(s, i + 1)
  }

  /** The parts between separators, empty ones included. */
  function Split(s: string): seq<string>
    decreases |s|
  {
    var k := FirstSep(s, 0);
    if k == |s| then [s] else [s[..k]] + Split(s[k + 2..])
  }

  function Keep(parts: seq<string>): seq<string> {
    if parts == [] then []
    else Keep(parts[..|parts| - 1]) + var t := Trim(parts[|parts| - 1]); if t == "" then [] else [t]
  }

  method SplitSQL(s: string) returns (stmts: seq<string>)
    ensures stmts == Keep(Split(s))
    ensures forall k | 0 <= k < |stmts| :: Whole(stmts[k])
  {
    var parts := Split(s);
    stmts := [];
    for k := 0 to |parts|
      invariant stmts == Keep(parts[..k])
    {
      var t := Trim(parts[k]);
      if t != "" {
        stmts := stmts + [t];
      }
      assert parts[..k + 1][..k] == parts[..k];
    }
    assert parts[..|parts|] == parts;
    SplitHasNoSep(s);
    KeepStatements(parts);
    forall k | 0 <= k < |stmts| ensures Whole(stmts[k]) { WholeIs(stmts[k]); }
  }

  /** A text `runSchema` can hand to the database as one statement. */
  predicate Whole(t: string) {
    && t != "" && t[0] !in " \t\r\n" && t[|t| - 1] !in " \t\r\n"
    && forall i | 0 <= i < |t| - 1 :: t[i] == ';' ==> t[i + 1] != '\n'
  }

  lemma WholeIs(t: string)
    requires Statement(t)
    ensures Whole(t)
  {
    forall i: nat | i < |t| - 1 ensures t[i] == ';' ==> t[i + 1] != '\n' { assert !SepAt(t, i); }
  }

  // ---- what comes out ----

  predicate Statement(t: string) {
    t != "" && !IsSpace(t[0]) && !IsSpace(t[|t| - 1]) && !HasSep(t)
  }

  lemma {:induction false} TrimLeftIs(s: string) returns (k: nat)
    ensures k <= |s| && TrimLeft(s) == s[k..]
    ensures forall j | 0 <= j < k :: IsSpace(s[j])
    ensures k < |s| ==> !IsSpace(s[k])
  {
    if s != "" && IsSpace(s[0]) {
      var l := TrimLeftIs(s[1..]);
      k := l + 1;
      forall j | 0 <= j < k ensures IsSpace(s[j]) { if j > 0 { assert s[1..][j - 1] == s[j]; } }
    } else {
      k := 0;
    }
  }

  lemma {:induction false} TrimRightIs(s: string) returns (k: nat)
    ensures k <= |s| && TrimRight(s) == s[..k]
    ensures forall j | k <= j < |s| :: IsSpace(s[j])
    ensures k > 0 ==> !IsSpace(s[k - 1])
  {
    if s != "" && IsSpace(s[|s| - 1]) {
      k := TrimRightIs(s[..|s| - 1]);
      assert s[..|s| - 1][..k] == s[..k];
    } else {
      k := |s|;
    }
  }

  /** Trimming yields a slice that starts and ends with something other than space. */
  lemma TrimIs(s: string) returns (a: nat, b: nat)
    ensures a <= b <= |s| && Trim(s) == s[a..b]
    ensures forall j | 0 <= j < a || b <= j < |s| :: IsSpace(s[j])
    ensures a < b ==> !IsSpace(s[a]) && !IsSpace(s[b - 1])
  {
    a := TrimLeftIs(s);
    var t := TrimLeft(s);
    var k := TrimRightIs(t);
    b := a + k;
    assert s[a..][..k] == s[a..b];
    forall j | b <= j < |s| ensures IsSpace(s[j]) { assert t[j - a] == s[j]; }
    if a < b { assert t[0] == s[a] && t[k - 1] == s[b - 1]; }
  }

  lemma {:induction false} SplitHasNoSep(s: string)
    ensures forall k | 0 <= k < |Split(s)| :: !HasSep(Split(s)[k])
    decreases |s|
  {
    var k := FirstSep(s, 0);
    if k == |s| {
      assert !HasSep(s);
    } else {
      SplitHasNoSep(s[k + 2..]);
      assert !HasSep(s[..k]) by {
        forall i: nat | i < k ensures !SepAt(s[..k], i) { assert !SepAt(s, i); }
      }
    }
  }

  lemma TrimKeepsNoSep(s: string)
    requires !HasSep(s) && Trim(s) != ""
    ensures Statement(Trim(s))
  {
    var a, b := TrimIs(s);
    var t := Trim(s);
    forall i: nat | i < |t| ensures !SepAt(t, i) { assert !SepAt(s, a + i); }
  }

  lemma {:induction false} KeepStatements(parts: seq<string>)
    requires forall k | 0 <= k < |parts| :: !HasSep(parts[k])
    ensures forall k | 0 <= k < |Keep(parts)| :: Statement(Keep(parts)[k])
  {
    if parts != [] {
      var n := |parts| - 1;
      KeepStatements(parts[..n]);
      if Trim(parts[n]) != "" { TrimKeepsNoSep(parts[n]); }
    }
  }

  // ---- the round trip ----

  predicate Statements(stmts: seq<string>) {
    forall k | 0 <= k < |stmts| :: Statement(stmts[k])
  }

  /** A script: each statement, then ";\n" and any white space before the next one. */
  function Script(stmts: seq<string>, gaps: seq<string>): string
    requires |stmts| == |gaps|
  {
    if stmts == [] then "" else stmts[0] + ";\n" + gaps[0] + Script(stmts[1..], gaps[1..])
  }

  predicate Blank(s: string) {
    forall k | 0 <= k < |s| :: IsSpace(s[k])
  }

  lemma {:induction false} FirstSepIs(s: string, i: nat, k: nat)
    requires i <= k < |s| && SepAt(s, k) && forall j | i <= j < k :: !SepAt(s, j)
    ensures FirstSep(s, i) == k
    decreases k - i
  {
    if i < k { FirstSepIs(s, i + 1, k); }
  }

  lemma {:induction false} KeepHead(p: string, parts: seq<string>)
    ensures Keep([p] + parts) == (if Trim(p) == "" then [] else [Trim(p)]) + Keep(parts)
    decreases parts
  {
    var all := [p] + parts;
    if parts == [] {
      assert all[..0] == [];
      assert Keep(all[..0]) == [];
    } else {
      var n := |parts| - 1;
      assert all[..|all| - 1] == [p] + parts[..n];
      KeepHead(p, parts[..n]);
    }
  }

  lemma TrimPadded(before: string, t: string)
    requires Blank(before) && t != "" && !IsSpace(t[0]) && !IsSpace(t[|t| - 1])
    ensures Trim(before + t) == t
  {
    var s := before + t;
    var a, b := TrimIs(s);
    assert s[|before|] == t[0] && s[|s| - 1] == t[|t| - 1];
    assert forall j | 0 <= j < |before| :: s[j] == before[j];
    assert a == |before| && b == |s|;
  }

  lemma TrimBlank(s: string)
    requires Blank(s)
    ensures Trim(s) == ""
  {
    var a, b := TrimIs(s);
  }

  /** White space before a statement does not hide or create a separator. */
  lemma NoSepPadded(before: string, t: string, rest: string, i: nat)
    requires Blank(before) && Statement(t) && i < |before| + |t|
    ensures !SepAt(before + t + ";\n" + rest, i)
  {
    var s := before + t + ";\n" + rest;
    if i < |before| {
      assert s[i] == before[i] && IsSpace(before[i]);
    } else {
      var j := i - |before|;
      assert s[i] == t[j];
      if j + 1 < |t| {
        assert s[i + 1] == t[j + 1];
        assert !SepAt(t, j);
      } else {
        assert s[i + 1] == ';';
      }
    }
  }

  lemma SplitHead(before: string, t: string, rest: string)
    requires Blank(before) && Statement(t)
    ensures Split(before + t + ";\n" + rest) == [before + t] + Split(rest)
  {
    var s := before + t + ";\n" + rest;
    var k := |before| + |t|;
    forall i: nat | i < k ensures !SepAt(s, i) { NoSepPadded(before, t, rest, i); }
    assert s[k] == ';' && s[k + 1] == '\n';
    FirstSepIs(s, 0, k);
    assert s[..k] == before + t && s[k + 2..] == rest;
  }

  lemma ScriptHead(before: string, stmts: seq<string>, gaps: seq<string>)
    requires |stmts| == |gaps| && stmts != []
    ensures before + Script(stmts, gaps) == before + stmts[0] + ";\n" + (gaps[0] + Script(stmts[1..], gaps[1..]))
  {
    Regroup(before, stmts[0], ";\n", gaps[0], Script(stmts[1..], gaps[1..]));
  }

  lemma Regroup(a: string, b: string, c: string, d: string, e: string)
    ensures a + (b + c + d + e) == a + b + c + (d + e)
  {
    assert b + c + d + e == b + c + (d + e);
    assert a + (b + c + (d + e)) == a + b + c + (d + e);
  }

  lemma {:induction false} SplitScript(before: string, stmts: seq<string>, gaps: seq<string>)
    requires |stmts| == |gaps| && Blank(before) && Statements(stmts) && forall k | 0 <= k < |gaps| :: Blank(gaps[k])
    ensures Keep(Split(before + Script(stmts, gaps))) == stmts
    decreases |stmts|
  {
    if stmts == [] {
      assert before + "" == before;
      assert !HasSep(before);
      TrimBlank(before);
      assert Keep([before][..0]) == [] by { assert [before][..0] == []; }
    } else {
      var t, rest := stmts[0], gaps[0] + Script(stmts[1..], gaps[1..]);
      ScriptHead(before, stmts, gaps);
      SplitHead(before, t, rest);
      SplitScript(gaps[0], stmts[1..], gaps[1..]);
      KeepHead(before + t, Split(rest));
      TrimPadded(before, t);
      assert [t] + stmts[1..] == stmts;
    }
  }

  /** A script is cut back into its statements exactly when each of them is non-empty,
      trimmed and free of ";\n" (which also cuts inside a literal or a comment). */
  lemma {:induction false} SplitRoundTrip(stmts: seq<string>, gaps: seq<string>)
    requires |stmts| == |gaps| && forall k | 0 <= k < |gaps| :: Blank(gaps[k])
    ensures Keep(Split(Script(stmts, gaps))) == stmts <==> Statements(stmts)
  {
    var text := Script(stmts, gaps);
    SplitHasNoSep(text);
    KeepStatements(Split(text));
    if Statements(stmts) {
      SplitScript("", stmts, gaps);
      assert "" + text == text;
    }
  }
}
