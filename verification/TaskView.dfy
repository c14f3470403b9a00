/** The runs the console shows for the open task: packages/console/components/console.tsx,
    `select`, `refreshCurrent` and `submit`. Refreshes overlap with each other, with
    selections and with submissions; two version counters keep the view consistent. */
module TaskView {
  import opened Seqs

  datatype Active = Nothing | Session(id: string) | Workflow(id: string)

  datatype Run = Run(id: string, createdAt: int)

  /** What the page holds: `activeRef`, `viewStarted`, `viewApplied` and `currentRuns`. */
  datatype View = View(active: Active, started: nat, applied: nat, runs: seq<Run>)

  function Ids(runs: seq<Run>): (ids: set<string>) {
    set run | run in runs :: run.id
  }

  /** Whether two selections name the same task, as `a?.id === b?.id` compares them. */
  predicate SameTask(a: Active, b: Active) {
    if a.Nothing? || b.Nothing? then a.Nothing? && b.Nothing? else a.id == b.id
  }

  // ---------- What each piece of code between two awaits does to the view ----------

  function Selected(v: View, next: Active): View {
    View(next, v.started + 1, v.started + 1, [])
  }

  predicate Stale(v: View, selected: Active, started: nat) {
    !SameTask(v.active, selected) || started < v.applied
  }

  function CreatedAt(run: Run): int { run.createdAt }

  /** The runs a response shows: a session's are put in order of creation. */
  function Arranged(selected: Active, runs: seq<Run>): seq<Run> {
    if selected.Session? then StableSort(runs, CreatedAt) else runs
  }

  function Settled(v: View, selected: Active, started: nat, runs: seq<Run>): View {
    if Stale(v, selected, started) then v
    else v.(applied := started, runs := Arranged(selected, runs))
  }

  /** A submission that returned: `asked` is the selection when it began. */
  function Submitted(v: View, asked: Active, session: string, run: Run): View {
    var v := if SameTask(asked, Session(session)) then v else Selected(v, Session(session));
    View(v.active, v.started + 1, v.started + 1, v.runs + [run])
  }

  /** All the runs of a response: a session's by creation, the earlier listed first of those created at
      the same time; any other's as they were listed. */
  ghost predicate ShowsRuns(shown: seq<Run>, selected: Active, listed: seq<Run>) {
    && (selected.Session? ==>
        Sorted(shown, CreatedAt) && forall at :: OfKey(shown, CreatedAt, at) == OfKey(listed, CreatedAt, at))
    && (!selected.Session? ==> shown == listed)
    && multiset(shown) == multiset(listed)
  }

  lemma ArrangedShows(selected: Active, runs: seq<Run>)
    ensures ShowsRuns(Arranged(selected, runs), selected, runs)
  {
    StableSortSorts(runs, CreatedAt);
    StableSortIsStable(runs, CreatedAt);
  }

  /** The page's refs and state, updated in place. */
  class Page {
    var active: Active
    var viewStarted: nat
    var viewApplied: nat
    var currentRuns: seq<Run>

    ghost function State(): View
      reads this
    {
      View(active, viewStarted, viewApplied, currentRuns)
    }

    constructor (task: Active)
      ensures State() == View(task, 0, 0, [])
    {
      active, viewStarted, viewApplied, currentRuns := task, 0, 0, [];
    }

    method Select(next: Active)
      modifies this
      ensures State() == Selected(old(State()), next)
      ensures active == next && currentRuns == [] && viewApplied == viewStarted == old(viewStarted) + 1
    {
      active := next;
      viewStarted := viewStarted + 1;
      viewApplied := viewStarted;
      currentRuns := [];
    }

    /** The start of `refreshCurrent`: its number, taken before the first await. */
    method BeginRefresh() returns (started: nat)
      modifies this`viewStarted
      ensures State() == old(State()).(started := old(State()).started + 1)
      ensures started == State().started
    {
      viewStarted := viewStarted + 1;
      started := viewStarted;
    }

    /** The end of `refreshCurrent`, once every run of the response has been read. */
    method Settle(selected: Active, started: nat, nextRuns: seq<Run>) returns (shown: bool)
      modifies this`viewApplied, this`currentRuns
      ensures State() == Settled(old(State()), selected, started, nextRuns)
      ensures shown == !Stale(old(State()), selected, started)
      ensures shown <==> SameTask(active, selected) && old(viewApplied) <= started
      ensures shown ==> viewApplied == started && ShowsRuns(currentRuns, selected, nextRuns)
      ensures !shown ==> viewApplied == old(viewApplied) && currentRuns == old(currentRuns)
    {
      ArrangedShows(selected, nextRuns);
      if !SameTask(active, selected) || started < viewApplied {
        return false;
      }
      viewApplied := started;
      currentRuns := Arranged(selected, nextRuns);
      return true;
    }

    /** `submit` after the daemon accepted the run. */
    method Accept(asked: Active, session: string, run: Run)
      modifies this
      ensures State() == Submitted(old(State()), asked, session, run)
      ensures var here := !asked.Nothing? && asked.id == session;
              && active == (if here then old(active) else Session(session))
              && currentRuns == (if here then old(currentRuns) else []) + [run]
              && viewApplied == viewStarted == old(viewStarted) + (if here then 1 else 2)
    {
      if !SameTask(asked, Session(session)) {
        Select(Session(session));
      }
      viewStarted := viewStarted + 1;
      viewApplied := viewStarted;
      currentRuns := currentRuns + [run];
    }
  }

  // ---------- The page, its requests in flight and the server ----------

  /** A refresh in flight. `floor` is history: the task's runs when the refresh began. */
  datatype Request = Request(task: Active, number: nat, floor: set<string>)

  /** `server` holds the committed runs of each task. The last three are history: the last
      selection's or submission's number, the numbers of the steps that wrote the shown
      runs, and the runs submitted into the open task since it was opened. */
  datatype System = System(view: View, inFlight: set<Request>, server: map<string, set<string>>,
                           barrier: nat, writes: seq<nat>, kept: set<string>)

  function RunsOf(server: map<string, set<string>>, task: Active): set<string> {
    if !task.Nothing? && task.id in server then server[task.id] else {}
  }

  function Initial(task: Active, server: map<string, set<string>>): System {
    System(View(task, 0, 0, []), {}, server, 0, [0], {})
  }

  datatype Step =
    | Select(next: Active)
    | Start(task: Active)
    | Commit(owner: string, id: string)
    | Respond(request: Request, runs: seq<Run>)
    | Abort(request: Request)
    | Submit(asked: Active, session: string, run: Run)

  /** A response lists at least what the server had when the refresh began, and only what it
      has; a submission returns a run that the server has committed to the session. */
  predicate Enabled(s: System, step: Step) {
    match step
    case Select(_) => true
    case Start(task) => !task.Nothing?
    case Commit(_, _) => true
    case Respond(request, runs) =>
      && request in s.inFlight
      && request.floor <= Ids(runs) <= RunsOf(s.server, request.task)
    case Abort(request) => request in s.inFlight
    case Submit(_, session, run) => run.id in RunsOf(s.server, Session(session))
  }

  function Next(s: System, step: Step): System
    requires Enabled(s, step)
  {
    match step
    case Select(next) =>
      var v := Selected(s.view, next);
      s.(view := v, barrier := v.applied, writes := s.writes + [v.applied], kept := {})
    case Start(task) =>
      var v := s.view.(started := s.view.started + 1);
      s.(view := v, inFlight := s.inFlight + {Request(task, v.started, RunsOf(s.server, task))})
    case Commit(owner, id) =>
      s.(server := s.server[owner := RunsOf(s.server, Session(owner)) + {id}])
    case Respond(request, runs) =>
      var v := Settled(s.view, request.task, request.number, runs);
      s.(view := v, inFlight := s.inFlight - {request},
         writes := if Stale(s.view, request.task, request.number) then s.writes else s.writes + [v.applied])
    case Abort(request) =>
      s.(inFlight := s.inFlight - {request})
    case Submit(asked, session, run) =>
      var v := Submitted(s.view, asked, session, run);
      var moved := !SameTask(asked, Session(session));
      var kept := if moved then {} else s.kept;
      s.(view := v, barrier := v.applied,
         writes := if moved then s.writes + [v.applied - 1, v.applied] else s.writes + [v.applied],
         kept := if SameTask(v.active, Session(session)) then kept + {run.id} else kept)
  }

  /** A refresh is in flight, under a new number, until it responds or is aborted; its response is settled
      under that number; selections and submissions are shown at once, and the server keeps what it commits. */
  lemma RequestsStep(s: System, step: Step)
    requires Enabled(s, step)
    ensures var t := Next(s, step);
            && (step.Start? ==>
                  && t.view == s.view.(started := s.view.started + 1)
                  && t.inFlight == s.inFlight + {Request(step.task, t.view.started, RunsOf(s.server, step.task))})
            && (step.Respond? ==>
                  && t.inFlight == s.inFlight - {step.request}
                  && t.view == Settled(s.view, step.request.task, step.request.number, step.runs))
            && (step.Abort? ==> t.inFlight == s.inFlight - {step.request} && t.view == s.view)
            && (step.Select? ==> t.view == Selected(s.view, step.next) && t.inFlight == s.inFlight)
            && (step.Submit? ==>
                  t.view == Submitted(s.view, step.asked, step.session, step.run) && t.inFlight == s.inFlight)
            && (if step.Commit? then
                  && t.view == s.view && t.inFlight == s.inFlight
                  && RunsOf(t.server, Session(step.owner)) == RunsOf(s.server, Session(step.owner)) + {step.id}
                  && forall task: Active :: !task.Nothing? && task.id != step.owner ==>
                       RunsOf(t.server, task) == RunsOf(s.server, task)
                else t.server == s.server)
  {
  }

  /** Every step of `steps` is enabled in turn. */
  predicate Runs(s: System, steps: seq<Step>)
    decreases steps
  {
    steps == [] || (Enabled(s, steps[0]) && Runs(Next(s, steps[0]), steps[1..]))
  }

  function After(s: System, steps: seq<Step>): System
    requires Runs(s, steps)
    decreases steps
  {
    if steps == [] then s else After(Next(s, steps[0]), steps[1..])
  }

  ghost predicate Reachable(s: System) {
    exists task, server, steps ::
      Runs(Initial(task, server), steps) && s == After(Initial(task, server), steps)
  }

  // ---------- The invariant ----------

  predicate Numbered(s: System) {
    && s.barrier <= s.view.applied <= s.view.started
    && s.writes != [] && s.writes[|s.writes| - 1] == s.view.applied
    && StrictlySorted(s.writes, n => n)
    && (forall r :: r in s.inFlight ==> !r.task.Nothing? && r.number <= s.view.started && r.number != s.view.applied)
    && (forall r, q :: r in s.inFlight && q in s.inFlight && r.number == q.number ==> r == q)
  }

  /** The submitted runs are shown, and any response that may still be shown has them. */
  predicate Keeping(s: System) {
    && s.kept <= Ids(s.view.runs)
    && s.kept <= RunsOf(s.server, s.view.active)
    && (forall r :: r in s.inFlight && !Stale(s.view, r.task, r.number) ==> s.kept <= r.floor)
  }

  predicate Inv(s: System) {
    Numbered(s) && Keeping(s)
  }

  lemma ArrangedKeeps(selected: Active, runs: seq<Run>)
    ensures Ids(Arranged(selected, runs)) == Ids(runs)
    ensures selected.Session? ==> Sorted(Arranged(selected, runs), CreatedAt)
  {
    StableSortKeeps(runs, CreatedAt);
    StableSortSorts(runs, CreatedAt);
  }

  lemma NextKeepsNumbers(s: System, step: Step)
    requires Inv(s) && Enabled(s, step)
    ensures Numbered(Next(s, step))
  {
    hide Keeping, Arranged, RunsOf, Ids;
  }

  lemma NextKeepsSubmissions(s: System, step: Step)
    requires Inv(s) && Enabled(s, step)
    ensures Keeping(Next(s, step))
  {
    match step
    case Respond(request, runs) => ArrangedKeeps(request.task, runs);
    case _ =>
  }

  lemma NextKeepsInv(s: System, step: Step)
    requires Inv(s) && Enabled(s, step)
    ensures Inv(Next(s, step))
  {
    NextKeepsNumbers(s, step);
    NextKeepsSubmissions(s, step);
  }

  lemma {:induction false} AfterKeepsInv(s: System, steps: seq<Step>)
    requires Inv(s) && Runs(s, steps)
    ensures Inv(After(s, steps))
    decreases steps
  {
    if steps != [] {
      NextKeepsInv(s, steps[0]);
      AfterKeepsInv(Next(s, steps[0]), steps[1..]);
    }
  }

  /** `viewApplied` names the last step that wrote the shown runs, and only ever grows. */
  lemma ReachableIsConsistent(s: System)
    requires Reachable(s)
    ensures Inv(s)
  {
    var task, server, steps :| Runs(Initial(task, server), steps) && s == After(Initial(task, server), steps);
    AfterKeepsInv(Initial(task, server), steps);
  }

  // ---------- No response from before the last selection or submission is shown ----------

  lemma StepKeepsStale(s: System, step: Step, task: Active, number: nat)
    requires Inv(s) && Enabled(s, step) && number <= s.view.started
    requires Stale(s.view, task, number)
    ensures Stale(Next(s, step).view, task, number) && number <= Next(s, step).view.started
  {
  }

  /** The check halfway through a workflow's refresh never refuses what the last one accepts. */
  lemma {:induction false} StaleIsForever(s: System, steps: seq<Step>, task: Active, number: nat)
    requires Inv(s) && Runs(s, steps) && number <= s.view.started
    requires Stale(s.view, task, number)
    ensures Stale(After(s, steps).view, task, number)
    decreases steps
  {
    if steps != [] {
      NextKeepsInv(s, steps[0]);
      StepKeepsStale(s, steps[0], task, number);
      StaleIsForever(Next(s, steps[0]), steps[1..], task, number);
    }
  }

  /** Whatever a request in flight at a selection or a submission answers, however much later,
      and whichever task is open by then, the shown runs do not change. */
  lemma OldResponsesAreNeverShown(s: System, step: Step, steps: seq<Step>, r: Request, runs: seq<Run>)
    requires Reachable(s) && Enabled(s, step) && (step.Select? || step.Submit?)
    requires Runs(Next(s, step), steps)
    requires r in s.inFlight
    ensures var v := After(Next(s, step), steps).view; Settled(v, r.task, r.number, runs) == v
  {
    ReachableIsConsistent(s);
    NextKeepsInv(s, step);
    StaleIsForever(Next(s, step), steps, r.task, r.number);
  }

  // ---------- A submitted run stays shown ----------

  /** No step opens another task (or the same one again). */
  predicate StaysOpen(steps: seq<Step>) {
    forall step :: step in steps ==> !step.Select? && (step.Submit? ==> SameTask(step.asked, Session(step.session)))
  }

  lemma {:induction false} KeptGrows(s: System, steps: seq<Step>)
    requires Inv(s) && Runs(s, steps) && StaysOpen(steps)
    ensures s.kept <= After(s, steps).kept
    decreases steps
  {
    if steps != [] {
      assert steps[0] in steps && forall step :: step in steps[1..] ==> step in steps;
      NextKeepsInv(s, steps[0]);
      KeptGrows(Next(s, steps[0]), steps[1..]);
    }
  }

  /** A run submitted into the open task is shown from then on, whatever refreshes answer in
      whatever order, until another task is opened. */
  lemma SubmittedRunStays(s: System, asked: Active, session: string, run: Run, steps: seq<Step>)
    requires Reachable(s) && Enabled(s, Submit(asked, session, run))
    requires SameTask(Next(s, Submit(asked, session, run)).view.active, Session(session))
    requires Runs(Next(s, Submit(asked, session, run)), steps) && StaysOpen(steps)
    ensures run.id in Ids(After(Next(s, Submit(asked, session, run)), steps).view.runs)
  {
    var s' := Next(s, Submit(asked, session, run));
    ReachableIsConsistent(s);
    NextKeepsInv(s, Submit(asked, session, run));
    KeptGrows(s', steps);
    AfterKeepsInv(s', steps);
  }

  // ---------- What the code does not keep, and exactly when it does ----------

  /** The shown runs all belong to the open task. */
  predicate OfTask(s: System) {
    Ids(s.view.runs) <= RunsOf(s.server, s.view.active)
  }

  /** A submission that began in its session lands while another task, without its run, is open. */
  predicate Strays(s: System, step: Step) {
    && step.Submit? && SameTask(step.asked, Session(step.session))
    && !SameTask(s.view.active, Session(step.session)) && step.run.id !in RunsOf(s.server, s.view.active)
  }

  lemma StepKeepsOfTask(s: System, step: Step)
    requires Inv(s) && OfTask(s) && Enabled(s, step)
    ensures OfTask(Next(s, step)) <==> !Strays(s, step)
  {
    match step
    case Respond(request, runs) => ArrangedKeeps(request.task, runs);
    case Submit(asked, session, run) =>
      var s' := Next(s, step);
      assert run in s'.view.runs && run.id in Ids(s'.view.runs);
    case _ =>
  }

  predicate NoneStrays(s: System, steps: seq<Step>)
    requires Runs(s, steps)
    decreases steps
  {
    steps == [] || (!Strays(s, steps[0]) && NoneStrays(Next(s, steps[0]), steps[1..]))
  }

  /** In every state from `s` on, the shown runs all belong to the task then open. */
  predicate AlwaysOfTask(s: System, steps: seq<Step>)
    requires Runs(s, steps)
    decreases steps
  {
    OfTask(s) && (steps == [] || AlwaysOfTask(Next(s, steps[0]), steps[1..]))
  }

  lemma {:induction false} OfTaskUnlessStraying(s: System, steps: seq<Step>)
    requires Inv(s) && OfTask(s) && Runs(s, steps)
    ensures AlwaysOfTask(s, steps) <==> NoneStrays(s, steps)
    decreases steps
  {
    hide Inv, OfTask, Strays;
    if steps != [] {
      var next, rest := Next(s, steps[0]), steps[1..];
      NextKeepsInv(s, steps[0]);
      StepKeepsOfTask(s, steps[0]);
      if OfTask(next) {
        OfTaskUnlessStraying(next, rest);
      } else {
        assert !AlwaysOfTask(next, rest);
      }
    }
  }

  /** Over every run: the shown runs always belong to the open task exactly when no submission that
      began in its session lands while a task without its run is open. */
  lemma RunsAreOfTheOpenTask(task: Active, server: map<string, set<string>>, steps: seq<Step>)
    requires Runs(Initial(task, server), steps)
    ensures AlwaysOfTask(Initial(task, server), steps) <==> NoneStrays(Initial(task, server), steps)
  {
    OfTaskUnlessStraying(Initial(task, server), steps);
  }

  predicate NoRepeats(runs: seq<Run>) {
    forall i, j :: 0 <= i < j < |runs| ==> runs[i].id != runs[j].id
  }

  /** A submission lands in its session's view after a refresh already showed its run. */
  predicate AlreadyShown(s: System, step: Step) {
    step.Submit? && SameTask(step.asked, Session(step.session)) && step.run.id in Ids(s.view.runs)
  }

  lemma CountedTwice(runs: seq<Run>, i: nat, j: nat)
    requires i < j < |runs| && runs[i] == runs[j]
    ensures multiset(runs)[runs[i]] >= 2
  {
    var front, back := runs[..j], runs[j..];
    assert runs == front + back && front[i] in front && back[0] in back;
    assert multiset(runs) == multiset(front) + multiset(back);
  }

  lemma {:induction false} CountedOnce(runs: seq<Run>, run: Run)
    requires NoRepeats(runs)
    ensures multiset(runs)[run] <= 1
  {
    if runs != [] {
      var front, last := runs[..|runs| - 1], runs[|runs| - 1];
      assert runs == front + [last];
      CountedOnce(front, run);
      assert forall i :: 0 <= i < |front| ==> runs[i].id != last.id && runs[i] == front[i];
    }
  }

  lemma SameRun(runs: seq<Run>, a: Run, b: Run)
    requires NoRepeats(runs) && a in runs && b in runs
    ensures a.id == b.id ==> a == b
  {
    var i :| 0 <= i < |runs| && runs[i] == a;
    var j :| 0 <= j < |runs| && runs[j] == b;
    assert i < j || j < i || i == j;
  }

  lemma PermutedOnce(runs: seq<Run>, permuted: seq<Run>)
    requires NoRepeats(runs) && multiset(permuted) == multiset(runs)
    ensures NoRepeats(permuted)
  {
    forall i, j | 0 <= i < j < |permuted| ensures permuted[i].id != permuted[j].id {
      assert permuted[i] in multiset(permuted) && permuted[j] in multiset(permuted);
      SameRun(runs, permuted[i], permuted[j]);
      CountedOnce(runs, permuted[i]);
      if permuted[i] == permuted[j] {
        CountedTwice(permuted, i, j);
      }
    }
  }

  /** Sorting a list brings in no repeats, and hides none. */
  lemma ArrangedOnce(selected: Active, runs: seq<Run>)
    ensures NoRepeats(Arranged(selected, runs)) <==> NoRepeats(runs)
  {
    StableSortSorts(runs, CreatedAt);
    var sorted := StableSort(runs, CreatedAt);
    hide StableSort, NoRepeats;
    if NoRepeats(runs) {
      PermutedOnce(runs, sorted);
    }
    if NoRepeats(sorted) {
      PermutedOnce(sorted, runs);
    }
  }

  /** A response that itself lists a run twice is shown. */
  predicate ListsTwice(s: System, step: Step) {
    step.Respond? && !Stale(s.view, step.request.task, step.request.number) && !NoRepeats(step.runs)
  }

  lemma StepKeepsNoRepeats(s: System, step: Step)
    requires Inv(s) && NoRepeats(s.view.runs) && Enabled(s, step)
    ensures NoRepeats(Next(s, step).view.runs) <==> !AlreadyShown(s, step) && !ListsTwice(s, step)
  {
    if step.Respond? {
      ArrangedOnce(step.request.task, step.runs);
    }
    hide StableSort, Arranged;
    if step.Submit? {
      var before, after := s.view.runs, Next(s, step).view.runs;
      if AlreadyShown(s, step) {
        var i :| 0 <= i < |before| && before[i].id == step.run.id;
        assert after[i].id == after[|before|].id;
      }
    }
  }

  predicate NoneRepeats(s: System, steps: seq<Step>)
    requires Runs(s, steps)
    decreases steps
  {
    steps == [] ||
    (!AlreadyShown(s, steps[0]) && !ListsTwice(s, steps[0]) && NoneRepeats(Next(s, steps[0]), steps[1..]))
  }

  /** In every state from `s` on, no run is shown twice. */
  predicate AlwaysOnce(s: System, steps: seq<Step>)
    requires Runs(s, steps)
    decreases steps
  {
    NoRepeats(s.view.runs) && (steps == [] || AlwaysOnce(Next(s, steps[0]), steps[1..]))
  }

  lemma {:induction false} OnceUnlessRepeated(s: System, steps: seq<Step>)
    requires Inv(s) && NoRepeats(s.view.runs) && Runs(s, steps)
    ensures AlwaysOnce(s, steps) <==> NoneRepeats(s, steps)
    decreases steps
  {
    hide Inv, NoRepeats, AlreadyShown, ListsTwice;
    if steps != [] {
      var next, rest := Next(s, steps[0]), steps[1..];
      NextKeepsInv(s, steps[0]);
      StepKeepsNoRepeats(s, steps[0]);
      if NoRepeats(next.view.runs) {
        OnceUnlessRepeated(next, rest);
      } else {
        assert !AlwaysOnce(next, rest);
      }
    }
  }

  /** Over every run: no run is ever shown twice exactly when no submission lands in its session's
      view after a refresh showed its run, and no response that lists a run twice is shown. */
  lemma RunsAreListedOnce(task: Active, server: map<string, set<string>>, steps: seq<Step>)
    requires Runs(Initial(task, server), steps)
    ensures AlwaysOnce(Initial(task, server), steps) <==> NoneRepeats(Initial(task, server), steps)
  {
    OnceUnlessRepeated(Initial(task, server), steps);
  }

  lemma NoStep(s: System)
    ensures Runs(s, []) && After(s, []) == s
  {
  }

  lemma OneStepMore(s: System, step: Step, steps: seq<Step>)
    requires Enabled(s, step) && Runs(Next(s, step), steps)
    ensures Runs(s, [step] + steps) && After(s, [step] + steps) == After(Next(s, step), steps)
  {
    assert ([step] + steps)[1..] == steps;
  }

  lemma RacingSubmission(s: System, open: Active, refresh: Request, run: Run)
    returns (s1: System, s2: System, s3: System)
    requires open == Session("s") && run.id == "r" && refresh == Request(open, 1, {"r"})
    requires s == Initial(open, map["s" := {"r"}])
    ensures Enabled(s, Start(open)) && s1 == Next(s, Start(open))
    ensures Enabled(s1, Respond(refresh, [run])) && s2 == Next(s1, Respond(refresh, [run]))
    ensures Enabled(s2, Submit(open, "s", run)) && s3 == Next(s2, Submit(open, "s", run))
    ensures s3.view.runs == [run, run]
  {
    s1 := Next(s, Start(open));
    assert Ids([run]) == {"r"};
    SortOne(run, CreatedAt);
    s2 := Next(s1, Respond(refresh, [run]));
    s3 := Next(s2, Submit(open, "s", run));
  }

  lemma FromTheStart(task: Active, server: map<string, set<string>>)
    ensures Reachable(Initial(task, server))
  {
    NoStep(Initial(task, server));
  }

  lemma ListedTwice(run: Run)
    ensures !NoRepeats([run, run])
  {
    assert [run, run][0].id == [run, run][1].id;
  }

  /** A poll that reads the new run before the submission's own answer arrives. */
  lemma RunListedTwice() returns (s: System, steps: seq<Step>)
    ensures Runs(s, steps) && Reachable(s)
    ensures !NoRepeats(After(s, steps).view.runs)
  {
    hide *;
    var open, run := Session("s"), Run("r", 1);
    var refresh := Request(open, 1, {"r"});
    s := Initial(open, map["s" := {"r"}]);
    FromTheStart(open, map["s" := {"r"}]);
    var s1, s2, s3 := RacingSubmission(s, open, refresh, run);
    NoStep(s3);
    OneStepMore(s2, Submit(open, "s", run), []);
    OneStepMore(s1, Respond(refresh, [run]), [Submit(open, "s", run)] + []);
    steps := [Respond(refresh, [run])] + ([Submit(open, "s", run)] + []);
    OneStepMore(s, Start(open), steps);
    steps := [Start(open)] + steps;
    ListedTwice(run);
  }

  /** Switching tasks while a submission is pending puts its run among another task's. */
  lemma RunStrays() returns (s: System, step: Step)
    ensures Reachable(s) && Enabled(s, step)
    ensures OfTask(s) && Strays(s, step) && !OfTask(Next(s, step))
  {
    var start := Initial(Session("a"), map["a" := {"r"}, "b" := {}]);
    s, step := Next(start, Select(Session("b"))), Submit(Session("a"), "a", Run("r", 1));
    NoStep(s);
    OneStepMore(start, Select(Session("b")), []);
    assert Reachable(s);
    assert Next(s, step).view.runs == [Run("r", 1)];
    assert Run("r", 1) in Next(s, step).view.runs;
  }
}
