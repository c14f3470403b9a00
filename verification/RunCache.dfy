/** Cached run details and merged histories: packages/console/components/console.tsx,
    `loadRun` and `mergeById`. */
module RunCache {
  import opened Seqs

  /** A run's record; `detail` is everything a summary leaves out. */
  datatype Run = Run(id: string, status: string, lastSeq: nat, cleanup: string, detail: string)

  predicate IsTerminal(status: string) {
    status in ["completed", "failed", "cancelled", "timed_out", "interrupted"]
  }

  /** Whether `cached` may stand in for the run that `summary` names. */
  predicate Answers(cached: Run, summary: Run) {
    && IsTerminal(summary.status) && cached.status == summary.status
    && cached.lastSeq == summary.lastSeq && cached.cleanup == summary.cleanup
  }

  // ---------- The server's records ----------

  /** What the server may make of a run's record: events are only added; an ended run keeps its
      status, and its record changes only when an event is added or its cleanup is settled. */
  predicate MayBecome(run: Run, next: Run) {
    && next.id == run.id && run.lastSeq <= next.lastSeq
    && (IsTerminal(run.status) ==>
          && next.status == run.status
          && (next == run || run.lastSeq < next.lastSeq
              || (run.cleanup == "unconfirmed" && next.cleanup != "unconfirmed")))
  }

  /** All the records a run has had, the current one last. */
  predicate IsHistory(id: string, history: seq<Run>) {
    && history != [] && (forall i :: 0 <= i < |history| ==> history[i].id == id)
    && (forall i :: 0 <= i < |history| - 1 ==> MayBecome(history[i], history[i + 1]))
  }

  /** A record that the run has had at place `at` or later. */
  predicate HadSince(history: seq<Run>, at: nat, run: Run) {
    exists i :: at <= i < |history| && history[i] == run
  }

  lemma {:induction false} EndedStays(id: string, history: seq<Run>, i: nat, j: nat)
    requires IsHistory(id, history) && i <= j < |history| && IsTerminal(history[i].status)
    ensures history[i].lastSeq <= history[j].lastSeq && history[j].status == history[i].status
    ensures history[j].lastSeq == history[i].lastSeq && history[i].cleanup != "unconfirmed" ==> history[j] == history[i]
    ensures history[j].lastSeq == history[i].lastSeq && history[j].cleanup == "unconfirmed" ==> history[j] == history[i]
    decreases j
  {
    if i < j {
      EndedStays(id, history, i, j - 1);
      assert MayBecome(history[j - 1], history[j - 1 + 1]);
    }
  }

  /** So an ended run has had one record for each last event and cleanup. */
  lemma EndedRecordsAreOne(id: string, history: seq<Run>, cached: Run, summary: Run)
    requires IsHistory(id, history) && cached in history && summary in history && Answers(cached, summary)
    ensures cached == summary
  {
    var i: nat :| i < |history| && history[i] == cached;
    var j: nat :| j < |history| && history[j] == summary;
    if i <= j {
      EndedStays(id, history, i, j);
    } else {
      EndedStays(id, history, j, i);
    }
  }

  class Server {
    var histories: map<string, seq<Run>>

    ghost predicate Valid()
      reads this
    {
      forall id :: id in histories ==> IsHistory(id, histories[id])
    }

    constructor ()
      ensures Valid() && histories == map[]
    {
      histories := map[];
    }

    method Change(run: Run)
      requires Valid()
      requires run.id in histories ==> MayBecome(histories[run.id][|histories[run.id]| - 1], run)
      modifies this
      ensures Valid()
      ensures histories ==
          old(histories)[run.id := (if run.id in old(histories) then old(histories)[run.id] else []) + [run]]
    {
      histories := histories[run.id := (if run.id in histories then histories[run.id] else []) + [run]];
    }

    /** `api.run`. */
    method Get(id: string) returns (full: Run)
      requires Valid() && id in histories
      ensures full == histories[id][|histories[id]| - 1]
    {
      full := histories[id][|histories[id]| - 1];
    }
  }

  ghost predicate HasGrown(before: map<string, seq<Run>>, after: map<string, seq<Run>>) {
    forall id :: id in before ==> id in after && before[id] <= after[id]
  }

  lemma LastIsCurrent(history: seq<Run>, at: nat, run: Run)
    requires at < |history| && history[at] == run
    ensures HadSince(history, at, run)
  {
  }

  /** What a fetch brought, by the time it is stored. */
  lemma FetchedIs(id: string, answered: seq<Run>, history: seq<Run>, at: nat, run: Run, summary: Run)
    requires IsHistory(id, history) && answered <= history && at < |answered| && answered[|answered| - 1] == run
    requires answered[at] == summary
    ensures run.id == id && run in history && HadSince(history, at, run)
    ensures |history| == |answered| ==> run == history[|history| - 1]
    ensures Answers(run, summary) ==> run == summary
  {
    hide MayBecome, Answers;
    assert history[|answered| - 1] == run && history[at] == summary;
    assert run in history && summary in history;
    if Answers(run, summary) {
      EndedRecordsAreOne(id, history, run, summary);
    }
  }

  /** `runCache`. */
  class Cache {
    var runs: map<string, Run>

    /** Every entry is a record that its run has had, perhaps an older one. */
    ghost predicate HoldsRecords(histories: map<string, seq<Run>>)
      reads this
    {
      forall id :: id in runs ==> id in histories && runs[id] in histories[id]
    }

    constructor ()
      ensures runs == map[]
    {
      runs := map[];
    }

    method Store(full: Run)
      modifies this
      ensures runs == old(runs)[full.id := full]
    {
      runs := runs[full.id := full];
    }

    /** `loadRun`: what it returns for a summary that the server gave is a record the run has had
        since. From the cache it is the very record that was summarized, whatever was stored there
        in between; and when the run still has the summary's status, last event and cleanup, it is
        the current record, as a fetch would answer. */
    method LoadRun(server: Server, summary: Run, ghost at: nat) returns (run: Run, hit: bool)
      requires server.Valid() && HoldsRecords(server.histories)
      requires summary.id in server.histories && at < |server.histories[summary.id]|
      requires server.histories[summary.id][at] == summary
      modifies this, server
      ensures server.Valid() && HoldsRecords(server.histories) && HasGrown(old(server.histories), server.histories)
      ensures HadSince(server.histories[summary.id], at, run)
      ensures hit <==>
                && IsTerminal(summary.status) && summary.id in old(runs)
                && var cached := old(runs)[summary.id];
                && cached.status == summary.status && cached.lastSeq == summary.lastSeq
                    && cached.cleanup == summary.cleanup
      ensures hit ==> run == summary
      ensures !hit ==> summary.id in runs && runs[summary.id] == run
      ensures hit ==> runs == old(runs) && server.histories == old(server.histories)
      ensures Answers(run, summary) ==> run == summary
      ensures !hit && |server.histories[summary.id]| == |old(server.histories)[summary.id]| ==>
                run == server.histories[summary.id][|server.histories[summary.id]| - 1]
    {
      hide MayBecome, IsHistory, HadSince, IsTerminal;
      if summary.id in runs && Answers(runs[summary.id], summary) {
        run, hit := runs[summary.id], true;
        EndedRecordsAreOne(summary.id, server.histories[summary.id], run, summary);
        LastIsCurrent(server.histories[summary.id], at, summary);
        return;
      }
      hit := false;
      Meanwhile(server, this);
      run := server.Get(summary.id);
      ghost var answered := server.histories[summary.id];
      Meanwhile(server, this);
      Store(run);
      FetchedIs(summary.id, answered, server.histories[summary.id], at, run, summary);
    }
  }

  /** What others do while a load awaits: the server's records change, and other loads of any run
      store records that it once had, in any order. */
  method Meanwhile(server: Server, cache: Cache)
    requires server.Valid() && cache.HoldsRecords(server.histories)
    modifies server, cache
    ensures server.Valid() && cache.HoldsRecords(server.histories)
    ensures HasGrown(old(server.histories), server.histories)
  {
    var times: nat :| true;
    for k := 0 to times
      invariant server.Valid() && cache.HoldsRecords(server.histories)
      invariant HasGrown(old(server.histories), server.histories)
    {
      var run: Run :| true;
      var at: nat :| true;
      if run.id !in server.histories || MayBecome(server.histories[run.id][|server.histories[run.id]| - 1], run) {
        server.Change(run);
      } else if at < |server.histories[run.id]| {
        cache.Store(server.histories[run.id][at]);
      }
    }
  }

  // ---------- Many loads at once, over every order of events ----------

  /** A `loadRun` of the summary at place `at` of a run's records: its list has answered, its fetch
      is out, the server has answered that, or it has returned. */
  datatype Load =
    | Listed(id: string, at: nat)
    | Asking(id: string, at: nat)
    | Answered(id: string, at: nat, full: Run)
    | Returned(id: string, at: nat, full: Run, hit: bool)

  datatype System = System(histories: map<string, seq<Run>>, cache: map<string, Run>, loads: map<nat, Load>)

  const START := System(map[], map[], map[])

  datatype Step =
    | Change(run: Run)
    | List(load: nat, id: string)
    | LookUp(load: nat)
    | Answer(load: nat)
    | Arrive(load: nat)
    | Abort(load: nat)

  function Current(s: System, id: string): Run
    requires id in s.histories && s.histories[id] != []
  {
    s.histories[id][|s.histories[id]| - 1]
  }

  predicate Enabled(s: System, step: Step) {
    match step
    case Change(run) => run.id in s.histories && s.histories[run.id] != [] ==> MayBecome(Current(s, run.id), run)
    case List(k, id) => k !in s.loads && id in s.histories && s.histories[id] != []
    case LookUp(k) =>
      k in s.loads && s.loads[k].Listed? && s.loads[k].id in s.histories && s.loads[k].at < |s.histories[s.loads[k].id]|
    case Answer(k) =>
      k in s.loads && s.loads[k].Asking? && s.loads[k].id in s.histories && s.histories[s.loads[k].id] != []
    case Arrive(k) => k in s.loads && s.loads[k].Answered?
    case Abort(k) => k in s.loads && !s.loads[k].Returned?
  }

  /** The summary a load was given. */
  function SummaryOf(s: System, load: Load): Run
    requires load.id in s.histories && load.at < |s.histories[load.id]|
  {
    s.histories[load.id][load.at]
  }

  predicate Hits(s: System, load: Load)
    requires load.id in s.histories && load.at < |s.histories[load.id]|
  {
    load.id in s.cache && Answers(s.cache[load.id], SummaryOf(s, load))
  }

  function Next(s: System, step: Step): System
    requires Enabled(s, step)
  {
    match step
    case Change(run) =>
      var before := if run.id in s.histories then s.histories[run.id] else [];
      s.(histories := s.histories[run.id := before + [run]])
    case List(k, id) => s.(loads := s.loads[k := Listed(id, |s.histories[id]| - 1)])
    case LookUp(k) =>
      var load := s.loads[k];
      s.(loads := s.loads[k := if Hits(s, load) then Returned(load.id, load.at, s.cache[load.id], true)
                               else Asking(load.id, load.at)])
    case Answer(k) =>
      var load := s.loads[k];
      s.(loads := s.loads[k := Answered(load.id, load.at, Current(s, load.id))])
    case Arrive(k) =>
      var load := s.loads[k];
      s.(cache := s.cache[load.id := load.full], loads := s.loads[k := Returned(load.id, load.at, load.full, false)])
    case Abort(k) => s.(loads := s.loads - {k})
  }

  /** What each load does: a list gives it the current record as its summary; a look-up returns the
      cached record exactly when the run has ended and that has the same status, last event and cleanup,
      and asks otherwise; the answer is the record of that moment, and is cached as it arrives. */
  lemma LoadsStep(s: System, step: Step)
    requires Enabled(s, step) && (step.List? || step.LookUp? || step.Answer? || step.Arrive?)
    ensures var next := Next(s, step); var k := step.load;
            && k in next.loads && next.histories == s.histories
            && (forall other :: other != k && other in s.loads ==>
                other in next.loads && next.loads[other] == s.loads[other])
            && (step.List? ==>
                  next.loads[k].Listed? && next.loads[k].id == step.id
                  && SummaryOf(next, next.loads[k]) == Current(s, step.id))
            && (step.LookUp? ==>
                  var load := s.loads[k]; var summary := SummaryOf(s, load);
                  if && IsTerminal(summary.status) && load.id in s.cache && s.cache[load.id].status == summary.status
                     && s.cache[load.id].lastSeq == summary.lastSeq && s.cache[load.id].cleanup == summary.cleanup
                  then next.loads[k] == Returned(load.id, load.at, s.cache[load.id], true)
                  else next.loads[k] == Asking(load.id, load.at))
            && (step.Answer? ==>
                  next.loads[k] == Answered(s.loads[k].id, s.loads[k].at, Current(s, s.loads[k].id)))
            && (step.Arrive? ==>
                  var load := s.loads[k];
                  && next.loads[k] == Returned(load.id, load.at, load.full, false)
                  && load.id in next.cache && next.cache[load.id] == load.full)
            && (forall id :: (step.Arrive? ==> id != s.loads[k].id) ==>
                  (id in next.cache <==> id in s.cache) && (id in s.cache ==> next.cache[id] == s.cache[id]))
  {
    hide IsTerminal, MayBecome;
  }

  predicate Runs(s: System, steps: seq<Step>)
    decreases steps
  {
    steps == [] || (Enabled(s, steps[0]) && Runs(Next(s, steps[0]), steps[1..]))
  }

  function After(s: System, steps: seq<Step>): System
    requires Runs(s, steps)
    decreases steps
  {
    if steps == [] then s else After(Next(s, steps[0]), steps[1..])
  }

  /** A load names a place in its run's records, and holds one that the run has had since. */
  predicate InStep(histories: map<string, seq<Run>>, load: Load) {
    && load.id in histories && load.at < |histories[load.id]|
    && (load.Answered? || load.Returned? ==> HadSince(histories[load.id], load.at, load.full))
    && (load.Returned? && load.hit ==> load.full == histories[load.id][load.at])
  }

  predicate Inv(s: System) {
    && (forall id :: id in s.histories ==> IsHistory(id, s.histories[id]))
    && (forall id :: id in s.cache ==> id in s.histories && s.cache[id] in s.histories[id])
    && (forall k :: k in s.loads ==> InStep(s.histories, s.loads[k]))
  }

  lemma HistoryGrows(id: string, history: seq<Run>, run: Run)
    requires run.id == id && (history != [] ==> IsHistory(id, history) && MayBecome(history[|history| - 1], run))
    ensures IsHistory(id, history + [run]) && forall r :: r in history ==> r in history + [run]
  {
  }

  lemma LoadStaysInStep(histories: map<string, seq<Run>>, run: Run, load: Load)
    requires InStep(histories, load)
    ensures InStep(histories[run.id := (if run.id in histories then histories[run.id] else []) + [run]], load)
  {
    var history := histories[load.id];
    if load.Answered? || load.Returned? {
      var i :| load.at <= i < |history| && history[i] == load.full;
      assert (history + [run])[i] == load.full;
    }
  }

  lemma ChangeKeepsInv(s: System, run: Run)
    requires Inv(s) && Enabled(s, Change(run))
    ensures Inv(Next(s, Change(run)))
  {
    var t := Next(s, Change(run));
    var before := if run.id in s.histories then s.histories[run.id] else [];
    HistoryGrows(run.id, before, run);
    forall k | k in t.loads ensures InStep(t.histories, t.loads[k]) {
      LoadStaysInStep(s.histories, run, s.loads[k]);
    }
  }

  lemma LookUpKeepsInv(s: System, k: nat)
    requires Inv(s) && Enabled(s, LookUp(k))
    ensures Inv(Next(s, LookUp(k)))
  {
    var load := s.loads[k];
    hide MayBecome;
    if Hits(s, load) {
      assert SummaryOf(s, load) in s.histories[load.id];
      EndedRecordsAreOne(load.id, s.histories[load.id], s.cache[load.id], SummaryOf(s, load));
    }
  }

  lemma NextKeepsInv(s: System, step: Step)
    requires Inv(s) && Enabled(s, step)
    ensures Inv(Next(s, step))
  {
    hide MayBecome;
    match step
    case Change(run) => ChangeKeepsInv(s, run);
    case LookUp(k) => LookUpKeepsInv(s, k);
    case _ =>
  }

  lemma {:induction false} AfterKeepsInv(s: System, steps: seq<Step>)
    requires Inv(s) && Runs(s, steps)
    ensures Inv(After(s, steps))
    decreases steps
  {
    if steps != [] {
      NextKeepsInv(s, steps[0]);
      AfterKeepsInv(Next(s, steps[0]), steps[1..]);
    }
  }

  lemma ReturnedIs(s: System, load: Load)
    requires Inv(s) && InStep(s.histories, load) && load.Returned?
    ensures HadSince(s.histories[load.id], load.at, load.full)
    ensures load.hit || Answers(load.full, SummaryOf(s, load)) ==> load.full == SummaryOf(s, load)
  {
    var history := s.histories[load.id];
    var i :| load.at <= i < |history| && history[i] == load.full;
    assert load.full in history && history[load.at] in history;
    if Answers(load.full, history[load.at]) {
      EndedRecordsAreOne(load.id, history, load.full, history[load.at]);
    }
  }

  /** Over every order of changes, lists, look-ups, answers, arrivals and aborts: what a load has
      returned is a record its run has had since it was summarized; the summarized one itself when
      it came from the cache, or when status, last event and cleanup are still the summary's. */
  lemma LoadsReturnTheServersRecord(steps: seq<Step>, k: nat)
    requires Runs(START, steps)
    requires var s := After(START, steps); k in s.loads && s.loads[k].Returned?
    ensures var s := After(START, steps); var load := s.loads[k];
            && load.id in s.histories && load.at < |s.histories[load.id]|
            && HadSince(s.histories[load.id], load.at, load.full)
            && (load.hit || Answers(load.full, SummaryOf(s, load)) ==> load.full == SummaryOf(s, load))
  {
    AfterKeepsInv(START, steps);
    var s := After(START, steps);
    var load := s.loads[k];
    hide *;
    ReturnedIs(s, load);
  }

  /** A cache hit is also what a fetch would answer now, when the run has not moved on. */
  lemma HitsAreAsFresh(steps: seq<Step>, k: nat)
    requires Runs(START, steps) && Enabled(After(START, steps), LookUp(k))
    requires var s := After(START, steps); Hits(s, s.loads[k])
    ensures var s := After(START, steps); var load := s.loads[k];
            && s.cache[load.id] == SummaryOf(s, load)
            && (Answers(Current(s, load.id), SummaryOf(s, load)) <==> s.cache[load.id] == Current(s, load.id))
  {
    AfterKeepsInv(START, steps);
    var s := After(START, steps);
    var load := s.loads[k];
    hide Runs, After;
    var history := s.histories[load.id];
    assert SummaryOf(s, load) in history && Current(s, load.id) in history;
    EndedRecordsAreOne(load.id, history, s.cache[load.id], SummaryOf(s, load));
    if Answers(Current(s, load.id), SummaryOf(s, load)) {
      EndedRecordsAreOne(load.id, history, Current(s, load.id), SummaryOf(s, load));
    }
  }

  // ---------- Merging lists by id ----------

  function Ids(runs: seq<Run>): set<string> {
    set run | run in runs :: run.id
  }

  function Without(runs: seq<Run>, ids: set<string>): seq<Run> {
    if runs == [] then []
    else
      var last := runs[|runs| - 1];
      Without(runs[..|runs| - 1], ids) + (if last.id in ids then [] else [last])
  }

  function MergeById(current: seq<Run>, incoming: seq<Run>): seq<Run> {
    incoming + Without(current, Ids(incoming))
  }

  predicate UniqueIds(runs: seq<Run>) {
    forall i, j :: 0 <= i < j < |runs| ==> runs[i].id != runs[j].id
  }

  lemma {:induction false} WithoutIs(runs: seq<Run>, ids: set<string>)
    ensures forall run :: run in Without(runs, ids) <==> run in runs && run.id !in ids
    ensures UniqueIds(runs) ==> UniqueIds(Without(runs, ids))
  {
    if runs != [] {
      var front, last := runs[..|runs| - 1], runs[|runs| - 1];
      assert runs == front + [last];
      WithoutIs(front, ids);
      if UniqueIds(runs) {
        forall run | run in front ensures run.id != last.id {
          var i :| 0 <= i < |front| && front[i] == run;
          assert runs[i].id != runs[|runs| - 1].id;
        }
      }
    }
  }

  /** Ids stay unique, an incoming record replaces the one of its id, and no id is lost. */
  lemma MergeByIdIs(current: seq<Run>, incoming: seq<Run>)
    ensures forall run :: run in MergeById(current, incoming) <==>
              run in incoming || (run in current && run.id !in Ids(incoming))
    ensures Ids(MergeById(current, incoming)) == Ids(current) + Ids(incoming)
    ensures UniqueIds(current) && UniqueIds(incoming) ==> UniqueIds(MergeById(current, incoming))
  {
    WithoutIs(current, Ids(incoming));
    var rest, merged := Without(current, Ids(incoming)), MergeById(current, incoming);
    if UniqueIds(current) && UniqueIds(incoming) {
      forall i, j | 0 <= i < j < |merged| ensures merged[i].id != merged[j].id {
        if i < |incoming| <= j {
          assert merged[i] in incoming && merged[j] in rest;
        }
      }
    }
    forall id | id in Ids(current) ensures id in Ids(merged) {
      var run :| run in current && run.id == id;
      if id in Ids(incoming) {
        var newer :| newer in incoming && newer.id == id;
        assert newer in merged;
      } else {
        assert run in merged;
      }
    }
  }

  /** The kept records are exactly those of other ids, in their order. */
  ghost predicate AreOthers(runs: seq<Run>, ids: set<string>, kept: seq<Run>) {
    exists places :: AtPlaces(runs, kept, places) &&
      forall i: nat :: i < |runs| ==> (runs[i].id !in ids <==> i in places)
  }

  lemma WithoutStep(front: seq<Run>, last: Run, ids: set<string>)
    ensures Without(front + [last], ids) == Without(front, ids) + (if last.id in ids then [] else [last])
  {
    var runs := front + [last];
    assert runs[..|runs| - 1] == front;
  }

  lemma OneMoreOther(front: seq<Run>, last: Run, ids: set<string>, kept: seq<Run>)
    requires AreOthers(front, ids, kept)
    ensures AreOthers(front + [last], ids, kept + if last.id in ids then [] else [last])
  {
    var places: seq<nat> :| AtPlaces(front, kept, places) &&
      forall i: nat :: i < |front| ==> (front[i].id !in ids <==> i in places);
    OnePlaceMore(front, kept, places, last);
    hide AtPlaces;
    var longer := if last.id in ids then places else places + [|front|];
    assert kept + [] == kept;
    assert AtPlaces(front + [last], kept + if last.id in ids then [] else [last], longer);
  }

  lemma {:induction false} WithoutAreOthers(runs: seq<Run>, ids: set<string>)
    ensures AreOthers(runs, ids, Without(runs, ids))
  {
    if runs == [] {
      assert AtPlaces(runs, [], []);
    } else {
      var front, last := runs[..|runs| - 1], runs[|runs| - 1];
      hide AreOthers, Without;
      WithoutAreOthers(front, ids);
      OneMoreOther(front, last, ids, Without(front, ids));
      WithoutStep(front, last, ids);
      assert front + [last] == runs;
    }
  }

  /** A merge lists the incoming records first and then the others, both in their order. */
  lemma MergeByIdOrder(current: seq<Run>, incoming: seq<Run>)
    ensures var merged := MergeById(current, incoming);
            incoming <= merged && AreOthers(current, Ids(incoming), merged[|incoming|..])
  {
    WithoutAreOthers(current, Ids(incoming));
    hide AreOthers;
    assert MergeById(current, incoming)[|incoming|..] == Without(current, Ids(incoming));
  }

  lemma {:induction false} WithoutKeepsOut(runs: seq<Run>, ids: set<string>)
    requires Ids(runs) <= ids
    ensures Without(runs, ids) == []
  {
    if runs != [] {
      assert runs[|runs| - 1].id in Ids(runs);
      assert Ids(runs[..|runs| - 1]) <= Ids(runs);
      WithoutKeepsOut(runs[..|runs| - 1], ids);
    }
  }

  lemma {:induction false} WithoutSplits(a: seq<Run>, b: seq<Run>, ids: set<string>)
    ensures Without(a + b, ids) == Without(a, ids) + Without(b, ids)
  {
    if b == [] {
      assert a + b == a;
    } else {
      assert (a + b)[..|a + b| - 1] == a + b[..|b| - 1];
      WithoutSplits(a, b[..|b| - 1], ids);
    }
  }

  lemma {:induction false} WithoutNone(runs: seq<Run>, ids: set<string>)
    requires forall run :: run in runs ==> run.id !in ids
    ensures Without(runs, ids) == runs
  {
    if runs != [] {
      var front, last := runs[..|runs| - 1], runs[|runs| - 1];
      assert runs == front + [last] && last in runs && forall run :: run in front ==> run in runs;
      WithoutNone(front, ids);
    }
  }

  /** Merging the same page again changes nothing. */
  lemma MergeByIdIsIdempotent(current: seq<Run>, incoming: seq<Run>)
    ensures MergeById(MergeById(current, incoming), incoming) == MergeById(current, incoming)
  {
    hide Without;
    var ids := Ids(incoming);
    WithoutKeepsOut(incoming, ids);
    WithoutIs(current, ids);
    WithoutSplits(incoming, Without(current, ids), ids);
    WithoutNone(Without(current, ids), ids);
  }
}
