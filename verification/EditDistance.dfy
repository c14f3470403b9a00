/** The edit distance behind "did you mean": packages/cli/src/init.ts, `candidates`.
    Strings are sequences of UTF-16 code units, as the source indexes them. */
module EditDistance {
  import opened CodeUnits

  // ---------- Reference: rewriting one string into another, one edit at a time ----------

  datatype Edit = Insert(at: nat, x: CodeUnit) | Delete(at: nat) | Substitute(at: nat, x: CodeUnit)

  predicate Fits(e: Edit, s: CodeText) {
    if e.Insert? then e.at <= |s| else e.at < |s|
  }

  function Apply(e: Edit, s: CodeText): CodeText
    requires Fits(e, s)
  {
    match e
    case Insert(at, x) => s[..at] + [x] + s[at..]
    case Delete(at) => s[..at] + s[at + 1..]
    case Substitute(at, x) => s[..at] + [x] + s[at + 1..]
  }

  /** The edits of `script`, done in order, turn `a` into `b`. */
  predicate Rewrites(script: seq<Edit>, a: CodeText, b: CodeText) {
    if script == [] then a == b
    else Fits(script[0], a) && Rewrites(script[1..], Apply(script[0], a), b)
  }

  /** `d` is the length of some script from `a` to `b`, and no script is shorter. */
  ghost predicate IsLeastScriptLength(d: nat, a: CodeText, b: CodeText) {
    && (exists script :: Rewrites(script, a, b) && |script| == d)
    && (forall script :: Rewrites(script, a, b) ==> d <= |script|)
  }

  // ---------- The recurrence the row computes ----------

  function Min(x: nat, y: nat): nat { if x <= y then x else y }

  function Cost(a: CodeText, b: CodeText): nat
    decreases |a| + |b|
  {
    if |a| == 0 then |b|
    else if |b| == 0 then |a|
    else
      var a', b' := a[..|a| - 1], b[..|b| - 1];
      Min(Min(Cost(a', b) + 1, Cost(a, b') + 1), Cost(a', b') + (if a[|a| - 1] == b[|b| - 1] then 0 else 1))
  }

  /** The table's cell: the cost between the first `i` units of `a` and the first `j` of `b`. */
  ghost function Cell(a: CodeText, b: CodeText, i: nat, j: nat): nat
    requires i <= |a| && j <= |b|
  {
    Cost(a[..i], b[..j])
  }

  lemma {:induction false} CellUnfolds(a: CodeText, b: CodeText, i: nat, j: nat)
    requires 0 < i <= |a| && 0 < j <= |b|
    ensures Cell(a, b, i, j) == Min(Min(Cell(a, b, i - 1, j) + 1, Cell(a, b, i, j - 1) + 1),
                                    Cell(a, b, i - 1, j - 1) + (if a[i - 1] == b[j - 1] then 0 else 1))
  {
    var s, t := a[..i], b[..j];
    assert s[..i - 1] == a[..i - 1] && t[..j - 1] == b[..j - 1];
  }

  lemma CellBorders(a: CodeText, b: CodeText)
    ensures forall j :: 0 <= j <= |b| ==> Cell(a, b, 0, j) == j
    ensures forall i :: 0 <= i <= |a| ==> Cell(a, b, i, 0) == i
  {
  }

  lemma LastCell(a: CodeText, b: CodeText)
    ensures Cell(a, b, |a|, |b|) == Cost(a, b)
  {
    assert a[..|a|] == a && b[..|b|] == b;
  }

  // ---------- Optimality ----------

  /** Scripts compose. */
  lemma {:induction false} RewritesThen(first: seq<Edit>, second: seq<Edit>, a: CodeText, b: CodeText, c: CodeText)
    requires Rewrites(first, a, b) && Rewrites(second, b, c)
    ensures Rewrites(first + second, a, c)
  {
    if first == [] {
      assert first + second == second;
    } else {
      var script := first + second;
      assert script[0] == first[0] && script[1..] == first[1..] + second;
      RewritesThen(first[1..], second, Apply(first[0], a), b, c);
    }
  }

  lemma RewritesAndEdit(front: seq<Edit>, e: Edit, a: CodeText, middle: CodeText, b: CodeText)
    returns (script: seq<Edit>)
    requires Rewrites(front, a, middle) && Fits(e, middle) && Apply(e, middle) == b
    ensures Rewrites(script, a, b) && |script| == |front| + 1
  {
    script := front + [e];
    RewritesThen(front, [e], a, middle, b);
  }

  lemma DeleteAndRewrites(rest: seq<Edit>, a: CodeText, b: CodeText) returns (script: seq<Edit>)
    requires |a| > 0 && Rewrites(rest, a[..|a| - 1], b)
    ensures Rewrites(script, a, b) && |script| == |rest| + 1
  {
    script := [Delete(|a| - 1)] + rest;
    assert script[1..] == rest && Apply(script[0], a) == a[..|a| - 1];
  }

  /** What an edit makes of a string, by the parts before and after its place. */
  lemma ApplyByParts(e: Edit, front: CodeText, taken: CodeText, back: CodeText, s: CodeText)
    requires e.at == |front| && |taken| == (if e.Insert? then 0 else 1) && s == front + taken + back
    ensures Fits(e, s) && Apply(e, s) == front + (if e.Delete? then [] else [e.x]) + back
  {
    assert s[..|front|] == front;
    assert s[if e.Insert? then |front| else |front| + 1..] == back;
  }

  lemma Joins(a: CodeText, b: CodeText, c: CodeText)
    ensures a + b + c == a + (b + c)
  {
  }

  lemma PartsFrame(e: Edit, front: CodeText, taken: CodeText, back: CodeText, tail: CodeText)
    requires e.at == |front| && |taken| == if e.Insert? then 0 else 1
    ensures var a := front + taken + back; Fits(e, a + tail) && Apply(e, a + tail) == Apply(e, a) + tail
  {
    hide Fits, Apply;
    var put := if e.Delete? then [] else [e.x];
    var a := front + taken + back;
    Joins(front + taken, back, tail);
    Joins(front + put, back, tail);
    ApplyByParts(e, front, taken, back, a);
    ApplyByParts(e, front, taken, back + tail, a + tail);
  }

  /** An edit leaves an ending alone. */
  lemma ApplyFrame(e: Edit, a: CodeText, tail: CodeText)
    requires Fits(e, a)
    ensures Fits(e, a + tail) && Apply(e, a + tail) == Apply(e, a) + tail
  {
    var n := if e.Insert? then e.at else e.at + 1;
    var front, taken, back := a[..e.at], a[e.at..n], a[n..];
    assert a == front + taken + back;
    hide Fits, Apply;
    PartsFrame(e, front, taken, back, tail);
  }

  /** A script leaves a common ending alone. */
  lemma {:induction false} RewritesFrame(script: seq<Edit>, a: CodeText, b: CodeText, tail: CodeText)
    requires Rewrites(script, a, b)
    ensures Rewrites(script, a + tail, b + tail)
  {
    hide Apply, Fits;
    if script != [] {
      ApplyFrame(script[0], a, tail);
      RewritesFrame(script[1..], Apply(script[0], a), b, tail);
    }
  }

  lemma CostBase(a: CodeText)
    ensures Cost(a, []) == |a| && Cost([], a) == |a|
  {
  }

  lemma RewritesNothing(a: CodeText)
    ensures Rewrites([], a, a)
  {
  }

  lemma CostUnfolds(a: CodeText, x: CodeUnit, b: CodeText, y: CodeUnit)
    ensures Cost(a + [x], b + [y])
         == Min(Min(Cost(a, b + [y]) + 1, Cost(a + [x], b) + 1), Cost(a, b) + (if x == y then 0 else 1))
  {
    var s, t := a + [x], b + [y];
    assert s[..|s| - 1] == a && t[..|t| - 1] == b;
  }

  lemma {:induction false} BestScript(a: CodeText, b: CodeText) returns (script: seq<Edit>)
    ensures Rewrites(script, a, b) && |script| == Cost(a, b)
    decreases |a| + |b|
  {
    hide Cost, Rewrites, Apply, Fits;
    CostBase(a);
    CostBase(b);
    var m, n := |a| - 1, |b| - 1;
    if |a| > 0 && |b| > 0 {
      assert a == a[..m] + [a[m]] && b == b[..n] + [b[n]];
      CostUnfolds(a[..m], a[m], b[..n], b[n]);
    }
    if |a| == 0 && |b| == 0 {
      RewritesNothing(a);
      script := [];
    } else if |b| > 0 && (|a| == 0 || Cost(a, b) == Cost(a, b[..n]) + 1) {
      CostBase(b[..n]);
      script := BestScript(a, b[..n]);
      assert b[..n] + [] + [] == b[..n] && b[..n] + [b[n]] + [] == b;
      ApplyByParts(Insert(n, b[n]), b[..n], [], [], b[..n]);
      script := RewritesAndEdit(script, Insert(n, b[n]), a, b[..n], b);
    } else if |b| == 0 || Cost(a, b) == Cost(a[..m], b) + 1 {
      CostBase(a[..m]);
      script := BestScript(a[..m], b);
      script := DeleteAndRewrites(script, a, b);
    } else {
      script := BestScript(a[..m], b[..n]);
      RewritesFrame(script, a[..m], b[..n], [a[m]]);
      if a[m] != b[n] {
        assert b[..n] + [a[m]] + [] == b[..n] + [a[m]] && b[..n] + [b[n]] + [] == b;
        ApplyByParts(Substitute(n, b[n]), b[..n], [a[m]], [], b[..n] + [a[m]]);
        script := RewritesAndEdit(script, Substitute(n, b[n]), a, b[..n] + [a[m]], b);
      }
    }
  }

  lemma {:induction false} CostSelf(a: CodeText)
    ensures Cost(a, a) == 0
  {
    if |a| > 0 { CostSelf(a[..|a| - 1]); }
  }

  lemma EditBeforeTheEnd(s: CodeText, x: CodeUnit, e: Edit, b: CodeText, y: CodeUnit)
    requires Fits(e, s)
    requires Cost(s, b + [y]) <= 1 + Cost(Apply(e, s), b + [y])
    requires Cost(s + [x], b) <= 1 + Cost(Apply(e, s + [x]), b)
    requires Cost(s, b) <= 1 + Cost(Apply(e, s), b)
    ensures Cost(s + [x], b + [y]) <= 1 + Cost(Apply(e, s + [x]), b + [y])
  {
    hide Cost, Apply, Fits;
    ApplyFrame(e, s, [x]);
    CostUnfolds(s, x, b, y);
    CostUnfolds(Apply(e, s), x, b, y);
  }

  lemma CostStepB(a: CodeText, b: CodeText, y: CodeUnit)
    ensures Cost(a, b + [y]) <= Cost(a, b) + 1
  {
    if |a| > 0 {
      assert a == a[..|a| - 1] + [a[|a| - 1]];
      CostUnfolds(a[..|a| - 1], a[|a| - 1], b, y);
    }
  }

  /** An edit of the last unit, or after it. */
  lemma ApplyAtTheEnd(e: Edit, keep: CodeText, taken: CodeText)
    requires e.at == |keep| && |taken| == if e.Insert? then 0 else 1
    ensures Fits(e, keep + taken) && Apply(e, keep + taken) == if e.Delete? then keep else keep + [e.x]
  {
    hide Apply, Fits;
    assert keep + taken + [] == keep + taken && keep + [] + [] == keep;
    assert e.Delete? || keep + [e.x] + [] == keep + [e.x];
    ApplyByParts(e, keep, taken, [], keep + taken);
  }

  lemma AtTheEndByParts(keep: CodeText, taken: CodeText, e: Edit, b: CodeText, y: CodeUnit)
    requires e.at == |keep| && |taken| == if e.Insert? then 0 else 1
    requires Cost(keep + taken, b) <= 1 + Cost(if e.Delete? then keep else keep + [e.x], b)
    ensures Cost(keep + taken, b + [y]) <= 1 + Cost(if e.Delete? then keep else keep + [e.x], b + [y])
  {
    hide Cost;
    CostStepB(keep + taken, b, y);
    if e.Insert? {
      assert taken == [] && keep + taken == keep;
    } else {
      assert taken == [taken[0]];
      CostUnfolds(keep, taken[0], b, y);
    }
    if !e.Delete? {
      CostUnfolds(keep, e.x, b, y);
    }
  }

  lemma EditAtTheEnd(s: CodeText, e: Edit, b: CodeText, y: CodeUnit)
    requires Fits(e, s) && (if e.Insert? then e.at == |s| else e.at == |s| - 1)
    requires Cost(s, b) <= 1 + Cost(Apply(e, s), b)
    ensures Cost(s, b + [y]) <= 1 + Cost(Apply(e, s), b + [y])
  {
    hide Cost, Apply;
    var keep, taken := s[..e.at], s[e.at..];
    assert s == keep + taken;
    ApplyAtTheEnd(e, keep, taken);
    AtTheEndByParts(keep, taken, e, b, y);
  }

  lemma {:induction false} OneEditCostsAtMostOne(s: CodeText, e: Edit, b: CodeText)
    requires Fits(e, s)
    ensures Cost(s, b) <= 1 + Cost(Apply(e, s), b)
    decreases |s| + |b|
  {
    hide Cost;
    CostBase(s);
    CostBase(Apply(e, s));
    if |b| > 0 {
      hide Apply;
      var m, n := |s| - 1, |b| - 1;
      OneEditCostsAtMostOne(s, e, b[..n]);
      assert b == b[..n] + [b[n]];
      if e.at < m || (e.Insert? && e.at == m) {
        var keep := s[..m];
        assert s == keep + [s[m]];
        OneEditCostsAtMostOne(keep, e, b);
        OneEditCostsAtMostOne(keep, e, b[..n]);
        EditBeforeTheEnd(keep, s[m], e, b[..n], b[n]);
      } else {
        EditAtTheEnd(s, e, b[..n], b[n]);
      }
    }
  }

  lemma {:induction false} NoShorterScript(script: seq<Edit>, a: CodeText, b: CodeText)
    requires Rewrites(script, a, b)
    ensures Cost(a, b) <= |script|
  {
    if script == [] {
      CostSelf(a);
    } else {
      NoShorterScript(script[1..], Apply(script[0], a), b);
      OneEditCostsAtMostOne(a, script[0], b);
    }
  }

  lemma {:induction false} CostIsLeast(a: CodeText, b: CodeText)
    ensures IsLeastScriptLength(Cost(a, b), a, b)
  {
    var best := BestScript(a, b);
    forall script | Rewrites(script, a, b) ensures Cost(a, b) <= |script| {
      NoShorterScript(script, a, b);
    }
  }

  // ---------- The row ----------

  /** The row of the first `i` units of `a`. */
  ghost predicate IsRow(row: seq<nat>, a: CodeText, b: CodeText, i: nat)
    requires i <= |a|
  {
    |row| == |b| + 1 && forall k :: 0 <= k <= |b| ==> row[k] == Cell(a, b, i, k)
  }

  /** The inner loop's row: the first `j` cells of row `i`, and the rest of the row before. */
  ghost predicate HalfWritten(row: seq<nat>, a: CodeText, b: CodeText, i: nat, j: nat)
    requires 0 < i <= |a|
  {
    && |row| == |b| + 1
    && (forall k :: 0 <= k < j && k <= |b| ==> row[k] == Cell(a, b, i, k))
    && (forall k :: j <= k <= |b| ==> row[k] == Cell(a, b, i - 1, k))
  }

  lemma FirstRow(a: CodeText, b: CodeText)
    ensures IsRow(seq(|b| + 1, k => k), a, b, 0)
  {
    CellBorders(a, b);
  }

  lemma RowBegins(row: seq<nat>, a: CodeText, b: CodeText, i: nat)
    requires 0 < i <= |a| && IsRow(row, a, b, i - 1)
    ensures row[0] == Cell(a, b, i - 1, 0) && HalfWritten(row[0 := i], a, b, i, 1)
  {
    CellBorders(a, b);
    hide Cell;
  }

  lemma CellWritten(row: seq<nat>, a: CodeText, b: CodeText, i: nat, j: nat, value: nat)
    requires 0 < i <= |a| && 0 < j <= |b| && HalfWritten(row, a, b, i, j)
    requires value == Min(Min(row[j] + 1, row[j - 1] + 1),
        Cell(a, b, i - 1, j - 1) + (if a[i - 1] == b[j - 1] then 0 else 1))
    ensures row[j] == Cell(a, b, i - 1, j) && HalfWritten(row[j := value], a, b, i, j + 1)
  {
    hide Cell, Min;
    CellUnfolds(a, b, i, j);
  }

  lemma RowEnds(row: seq<nat>, a: CodeText, b: CodeText, i: nat)
    requires 0 < i <= |a| && HalfWritten(row, a, b, i, |b| + 1)
    ensures IsRow(row, a, b, i)
  {
    hide Cell;
  }

  lemma LastInRow(row: seq<nat>, a: CodeText, b: CodeText)
    requires IsRow(row, a, b, |a|)
    ensures |row| == |b| + 1 && row[|b|] == Cell(a, b, |a|, |b|)
  {
  }

  /** The one-row dynamic program, overwritten in place. */
  method Distance(a: CodeText, b: CodeText) returns (d: nat)
    ensures d == Cost(a, b)
    ensures IsLeastScriptLength(d, a, b)
  {
    hide Cell, Cost, IsRow, HalfWritten, Min;
    var row := new nat[|b| + 1](index => index);
    FirstRow(a, b);
    assert row[..] == seq(|b| + 1, k => k);
    for i := 1 to |a| + 1
      invariant IsRow(row[..], a, b, i - 1)
    {
      RowBegins(row[..], a, b, i);
      var previous := row[0];
      row[0] := i;
      for j := 1 to |b| + 1
        invariant HalfWritten(row[..], a, b, i, j)
        invariant previous == Cell(a, b, i - 1, j - 1)
      {
        var current := row[j];
        var value := Min(Min(row[j] + 1, row[j - 1] + 1), previous + (if a[i - 1] == b[j - 1] then 0 else 1));
        CellWritten(row[..], a, b, i, j, value);
        row[j] := value;
        previous := current;
      }
      RowEnds(row[..], a, b, i);
    }
    d := row[|b|];
    LastInRow(row[..], a, b);
    LastCell(a, b);
    CostIsLeast(a, b);
  }

  // ---------- The distance is a metric ----------

  lemma {:induction false} CostIsZeroExactlyForEqual(a: CodeText, b: CodeText)
    ensures Cost(a, b) == 0 <==> a == b
  {
    CostSelf(a);
    var script := BestScript(a, b);
  }

  lemma {:induction false} CostIsSymmetric(a: CodeText, b: CodeText)
    ensures Cost(a, b) == Cost(b, a)
    decreases |a| + |b|
  {
    if |a| > 0 && |b| > 0 {
      CostIsSymmetric(a[..|a| - 1], b);
      CostIsSymmetric(a, b[..|b| - 1]);
      CostIsSymmetric(a[..|a| - 1], b[..|b| - 1]);
    }
  }

  lemma {:induction false} CostTriangle(a: CodeText, b: CodeText, c: CodeText)
    ensures Cost(a, c) <= Cost(a, b) + Cost(b, c)
  {
    var first := BestScript(a, b);
    var second := BestScript(b, c);
    RewritesThen(first, second, a, b, c);
    NoShorterScript(first + second, a, c);
  }

  lemma {:induction false} CostBounds(a: CodeText, b: CodeText)
    ensures |a| - |b| <= Cost(a, b) && |b| - |a| <= Cost(a, b)
    ensures Cost(a, b) <= if |a| >= |b| then |a| else |b|
    decreases |a| + |b|
  {
    if |a| > 0 && |b| > 0 {
      CostBounds(a[..|a| - 1], b);
      CostBounds(a, b[..|b| - 1]);
      CostBounds(a[..|a| - 1], b[..|b| - 1]);
    }
  }

  // ---------- Suggestions ----------

  const MAX_SUGGESTIONS := 5

  predicate Close(given: CodeText, name: CodeText) {
    given <= name || Cost(given, name) <= 2
  }

  /** A name is suggested when it continues what was given, or at most two edits lead from one to the other. */
  lemma CloseIs(given: CodeText, name: CodeText)
    ensures Close(given, name) <==> given <= name || exists script :: Rewrites(script, given, name) && |script| <= 2
  {
    CostIsLeast(given, name);
  }

  /** `at` are the places in `names` that `close` was taken from: in order, all of them close,
      and a close name is left out only when it comes after five others. */
  ghost predicate FirstClose(given: CodeText, names: seq<CodeText>, close: seq<CodeText>, at: seq<nat>) {
    && |at| == |close| <= 5
    && (forall k :: 0 <= k < |at| ==> at[k] < |names| && names[at[k]] == close[k] && Close(given, close[k]))
    && (forall j, k :: 0 <= j < k < |at| ==> at[j] < at[k])
    && (forall i :: 0 <= i < |names| && Close(given, names[i]) && i !in at ==>
          |close| == 5 && at[4] < i)
  }

  /** `found` is the whole filtered list, taken from the places `at`. */
  ghost predicate AllClose(given: CodeText, names: seq<CodeText>, found: seq<CodeText>, at: seq<nat>) {
    && |at| == |found|
    && (forall k :: 0 <= k < |at| ==> at[k] < |names| && names[at[k]] == found[k] && Close(given, found[k]))
    && (forall j, k :: 0 <= j < k < |at| ==> at[j] < at[k])
    && (forall i :: 0 <= i < |names| && Close(given, names[i]) ==> i in at)
  }

  lemma NothingClose(given: CodeText)
    ensures AllClose(given, [], [], [])
  {
  }

  lemma AllCloseStep(given: CodeText, names: seq<CodeText>, name: CodeText, found: seq<CodeText>, at: seq<nat>)
    requires AllClose(given, names, found, at)
    ensures if Close(given, name) then AllClose(given, names + [name], found + [name], at + [|names|])
            else AllClose(given, names + [name], found, at)
  {
    if Close(given, name) {
      var at' := at + [|names|];
      assert forall i :: i in at ==> i in at';
      assert at'[|at|] == |names|;
    }
  }

  lemma FirstOfAllClose(given: CodeText, names: seq<CodeText>, found: seq<CodeText>, at: seq<nat>, n: nat)
    requires AllClose(given, names, found, at)
    requires n == if |found| < MAX_SUGGESTIONS then |found| else MAX_SUGGESTIONS
    ensures exists first :: FirstClose(given, names, found[..n], first)
  {
    hide Close;
    assert forall j :: 0 <= j < n ==> at[j] in at[..n];
    forall i | 0 <= i < |names| && Close(given, names[i]) && i !in at[..n]
      ensures n == MAX_SUGGESTIONS && at[n - 1] < i
    {
    }
    assert FirstClose(given, names, found[..n], at[..n]);
  }

  method Candidates(given: CodeText, names: seq<CodeText>) returns (close: seq<CodeText>)
    ensures exists at :: FirstClose(given, names, close, at)
  {
    hide AllClose, FirstClose, Cost;
    var found: seq<CodeText> := [];
    ghost var at: seq<nat> := [];
    NothingClose(given);
    for i := 0 to |names|
      invariant AllClose(given, names[..i], found, at)
    {
      var near := given <= names[i];
      if !near {
        var d := Distance(given, names[i]);
        near := d <= 2;
      }
      AllCloseStep(given, names[..i], names[i], found, at);
      assert names[..i] + [names[i]] == names[..i + 1];
      if near {
        found, at := found + [names[i]], at + [i];
      }
    }
    assert names[..|names|] == names;
    var n := if |found| < MAX_SUGGESTIONS then |found| else MAX_SUGGESTIONS;
    close := found[..n];
    FirstOfAllClose(given, names, found, at, n);
  }
}
