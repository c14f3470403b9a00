/** What every run of the first-run wizard keeps: packages/cli/src/init.ts, `runInit`. */
module FirstRunLaws {
  import opened Optional
  import opened FirstRun

  // ---------- What a call leaves alone ----------

  predicate SameCatalog(a: State, b: State) {
    a.presets == b.presets && a.agents == b.agents
  }

  lemma {:induction false} ApplyAllKeeps(state: State, effects: seq<Effect>)
    requires forall e :: e in effects ==> !e.Wire?
    ensures SameCatalog(state, ApplyAll(state, effects)) && ApplyAll(state, effects).wirings == state.wirings
  {
    if effects != [] {
      var front, last := effects[..|effects| - 1], effects[|effects| - 1];
      assert last in effects && forall e :: e in front ==> e in effects;
      ApplyAllKeeps(state, front);
    }
  }

  lemma {:induction false} PreviewsAre(planned: seq<Planned>)
    ensures forall e :: e in Previews(planned) ==> e.Preview?
  {
    if planned != [] {
      PreviewsAre(planned[..|planned| - 1]);
    }
  }

  // ---------- Wiring only what was shown and confirmed ----------

  predicate Offers(planned: seq<Planned>, wire: Effect)
    requires wire.Wire?
  {
    exists p :: p in planned && p.Changes() && wire == Wire(p.place, p.agent.id, p.input, p.plan.value)
  }

  ghost predicate AgreedBetween(trace: seq<Effect>, j: nat, k: nat)
    requires k < |trace|
  {
    exists i: nat :: j < i < k && trace[i].Confirm? && Yes(trace[i].text)
  }

  /** The wiring at `k` sends the changed plan of a preview shown before it, and was agreed to: by
      `--yes`, or by a yes given after that preview. */
  ghost predicate Allowed(trace: seq<Effect>, k: nat, yes: bool)
    requires k < |trace| && trace[k].Wire?
  {
    exists j: nat :: j < k && trace[j].Show? && Offers(trace[j].planned, trace[k])
        && (yes || AgreedBetween(trace, j, k))
  }

  ghost predicate Safe(trace: seq<Effect>, yes: bool) {
    forall k: nat :: k < |trace| && trace[k].Wire? ==> Allowed(trace, k, yes)
  }

  lemma {:induction false} WireTrace(state: State, planned: seq<Planned>, luck: Luck)
    ensures forall e :: e in WireAll(state, planned, luck).trace ==> e.Wire? && Offers(planned, e)
  {
    if planned != [] {
      var front := planned[..|planned| - 1];
      WireTrace(state, front, luck);
      assert planned[|planned| - 1] in planned && forall p :: p in front ==> p in planned;
    }
  }

  lemma SafeAfter(front: seq<Effect>, trace: seq<Effect>, yes: bool)
    requires Safe(trace, yes) && forall e :: e in front ==> !e.Wire?
    ensures Safe(front + trace, yes)
  {
    hide Offers, Yes;
    var all, n := front + trace, |front|;
    forall k: nat | k < |all| && all[k].Wire? ensures Allowed(all, k, yes) {
      assert forall i: nat :: i < n ==> all[i] in front;
      assert Allowed(trace, k - n, yes);
      var j: nat :| j < k - n && trace[j].Show? && Offers(trace[j].planned, trace[k - n])
          && (yes || AgreedBetween(trace, j, k - n));
      assert all[j + n] == trace[j];
      if !yes {
        var i: nat :| j < i < k - n && trace[i].Confirm? && Yes(trace[i].text);
        assert all[i + n] == trace[i];
      }
    }
  }

  lemma SafeWithoutWires(trace: seq<Effect>, yes: bool)
    requires forall e :: e in trace ==> !e.Wire?
    ensures Safe(trace, yes)
  {
    forall k: nat | k < |trace| ensures !trace[k].Wire? {
      assert trace[k] in trace;
    }
  }

  lemma SafeUpTo(trace: seq<Effect>, n: nat, yes: bool)
    requires n <= |trace| && forall e :: e in trace ==> !e.Wire?
    ensures Safe(trace[..n], yes)
  {
    forall k: nat | k < n ensures !trace[..n][k].Wire? {
      assert trace[k] in trace;
    }
  }

  lemma ShownIsSafe(planned: seq<Planned>, asks: seq<Effect>, wires: seq<Effect>, yes: bool)
    requires forall e :: e in wires ==> e.Wire? && Offers(planned, e)
    requires yes || wires == [] || (|asks| == 1 && asks[0].Confirm? && Yes(asks[0].text))
    requires forall e :: e in asks ==> !e.Wire?
    ensures Safe([Show(planned)] + asks + wires, yes)
  {
    var all := [Show(planned)] + asks + wires;
    forall k: nat | k < |all| && all[k].Wire? ensures Allowed(all, k, yes) {
      assert forall i: nat :: i < |asks| ==> all[i + 1] == asks[i] && asks[i] in asks;
      assert all[k] in wires;
      assert all[0] == Show(planned) && Offers(all[0].planned, all[k]);
      assert !yes ==> all[1] == asks[0] && AgreedBetween(all, 0, k);
    }
  }

  lemma NoChangesNoWires(planned: seq<Planned>, wires: seq<Effect>)
    requires forall e :: e in wires ==> e.Wire? && Offers(planned, e)
    ensures Changing(planned) || wires == []
  {
    if wires != [] {
      assert wires[0] in wires;
    }
  }

  lemma PlanAndWireIsSafe(state: State, result: Result, selection: Selection, answers: Answers,
                          person: Option<Person>, luck: Luck)
    ensures Safe(PlanAndWire(state, result, selection, answers, person, luck).trace, answers.yes)
  {
    hide Safe, Planning, Previews, WireAll, Offers, Yes, Changing, FirstFailing;
    var planned := Planning(state, selection);
    var calls := Previews(planned);
    var n := FirstFailing(calls, Failing(luck));
    PreviewsAre(planned);
    var asks := Asks(planned, answers, person);
    var wires := if MayWire(planned, answers, person) then WireAll(state, planned, luck).trace else [];
    if n < |calls| {
      SafeWithoutWires(calls, answers.yes);
      SafeUpTo(calls, n + 1, answers.yes);
    } else {
      WireTrace(state, planned, luck);
      NoChangesNoWires(planned, wires);
      ShownIsSafe(planned, asks, wires, answers.yes);
      SafeAfter(calls, [Show(planned)] + asks + wires, answers.yes);
      assert calls + ([Show(planned)] + asks + wires) == calls + [Show(planned)] + asks + wires;
      assert wires == [] ==> calls + [Show(planned)] + asks + wires == calls + [Show(planned)] + asks;
    }
  }

  lemma WritesAreNoWires(d: Decision)
    ensures forall e :: e in Writes(d) ==> e.Create? || e.Move? || e.AddKey?
  {
  }

  lemma WireAgentsIsSafe(state: State, result: Result, models: seq<string>, answers: Answers,
                         person: Option<Person>, luck: Luck)
    ensures Safe(WireAgents(state, result, models, answers, person, luck).trace, answers.yes)
  {
    hide Safe, Select, PlanAndWire;
    SafeWithoutWires([], answers.yes);
    var selected := Select(state, models, answers, person);
    if selected.Go? {
      PlanAndWireIsSafe(state, result, selected.value, answers, person, luck);
    }
  }

  /** Over every run: an agent is wired only by the changed plan of a preview shown before, and only
      with `--yes` or after a yes to the question that follows that preview. */
  lemma WiredOnlyAsShown(state: State, answers: Answers, person: Option<Person>, luck: Luck)
    ensures Safe(Run(state, answers, person, luck).trace, answers.yes)
  {
    hide Safe, Decide, Writes, WireAgents, FirstFailing, ApplyAll, StateAfter;
    SafeWithoutWires([], answers.yes);
    var decided := Decide(state, answers, person, luck);
    if decided.Go? {
      var d := decided.value;
      var writes, refresh := Writes(d), Refresh(d.preset.id, luck.models);
      var n := FirstFailing(writes, Failing(luck));
      WritesAreNoWires(d);
      if n < |writes| {
        SafeWithoutWires(writes, answers.yes);
        SafeUpTo(writes, n + 1, answers.yes);
      } else {
        var next := StateAfter(ApplyAll(state, writes), refresh, luck);
        if EndsAtRefresh(refresh, luck) {
          SafeAfter(writes + [refresh], [], answers.yes);
          assert writes + [refresh] + [] == writes + [refresh];
        } else {
          var models := ModelsOf(next, d.preset.id);
          var result := ResultOf(d, |models|, refresh in luck.refused);
          var ran := WireAgents(next, result, models, answers, person, luck);
          WireAgentsIsSafe(next, result, models, answers, person, luck);
          SafeAfter([refresh], ran.trace, answers.yes);
          SafeAfter(writes, [refresh] + ran.trace, answers.yes);
        }
      }
    }
  }

  // ---------- The wiring loop ----------

  predicate Distinct(planned: seq<Planned>) {
    forall j, k :: 0 <= j < k < |planned| ==> planned[j].agent.id != planned[k].agent.id
  }

  function WireOf(p: Planned): Effect
    requires p.Changes()
  {
    Wire(p.place, p.agent.id, p.input, p.plan.value)
  }

  function ReportOf(p: Planned, luck: Luck): Report {
    if !p.Changes() then Unchanged else if WireOf(p) in luck.refused then Failed else Wired
  }

  function WiringAfter(state: State, p: Planned, luck: Luck): Option<Wiring> {
    var before := WiringOf(state, p.agent.id);
    if ReportOf(p, luck) == Wired then Some(Rewired(before, p.input)) else before
  }

  lemma OneEntryMore(done: Wirings, p: Planned, luck: Luck)
    ensures var next := WireOne(done, p, luck);
            && (!next.threw ==> !done.threw)
            && if next.threw then next.entries == done.entries
               else exists report :: next.entries == done.entries + [Entry(p.agent.id, p.input, report)]
                                     && (report == Unchanged <==> !p.Changes())
  {
    hide StateAfter, ReplyTo;
    var next := WireOne(done, p, luck);
    if !next.threw {
      assert next.entries == done.entries + [Entry(p.agent.id, p.input, next.entries[|done.entries|].report)];
    }
  }

  lemma WiringKeepsProviders(done: Wirings, p: Planned, luck: Luck)
    ensures SameCatalog(WireOne(done, p, luck).state, done.state)
    ensures WireOne(done, p, luck).state.providers == done.state.providers
  {
    hide Rewired;
  }

  /** One entry for each planned agent, in order, unless a lost call ends the loop; `unchanged`
      exactly without a changed plan. Providers stay. */
  lemma {:induction false} EntriesFollow(state: State, planned: seq<Planned>, luck: Luck)
    ensures var wired := WireAll(state, planned, luck);
            && |wired.entries| <= |planned| && (!wired.threw ==> |wired.entries| == |planned|)
            && forall k :: 0 <= k < |wired.entries| ==>
                 && wired.entries[k].agent == planned[k].agent.id && wired.entries[k].input == planned[k].input
                 && (wired.entries[k].report == Unchanged <==> !planned[k].Changes())
    ensures SameCatalog(WireAll(state, planned, luck).state, state)
    ensures WireAll(state, planned, luck).state.providers == state.providers
  {
    if planned != [] {
      var front, last := planned[..|planned| - 1], planned[|planned| - 1];
      EntriesFollow(state, front, luck);
      WiringKeepsProviders(WireAll(state, front, luck), last, luck);
      OneEntryMore(WireAll(state, front, luck), last, luck);
      hide WireOne, Planned.Changes;
      assert planned == front + [last];
    }
  }

  lemma OneWiring(state: State, done: Wirings, p: Planned, luck: Luck)
    requires p == PlannedFor(state, p.place, p.agent, p.input)
    requires WiringOf(done.state, p.agent.id) == WiringOf(state, p.agent.id)
    requires !WireOne(done, p, luck).threw
    ensures var next := WireOne(done, p, luck);
            && !done.threw && next.entries == done.entries + [Entry(p.agent.id, p.input, ReportOf(p, luck))]
            && WiringOf(next.state, p.agent.id) == WiringAfter(state, p, luck)
            && forall id :: id != p.agent.id ==> WiringOf(next.state, id) == WiringOf(done.state, id)
  {
    hide SameWiring, Rewired;
  }

  /** The loop's state after the agents of `planned`. */
  ghost predicate WiredSoFar(state: State, planned: seq<Planned>, luck: Luck, wired: Wirings) {
    && |wired.entries| == |planned|
    && (forall k :: 0 <= k < |planned| ==> wired.entries[k].report == ReportOf(planned[k], luck))
    && (forall k :: 0 <= k < |planned| ==>
        WiringOf(wired.state, planned[k].agent.id) == WiringAfter(state, planned[k], luck))
    && (forall id :: (forall p :: p in planned ==> p.agent.id != id) ==>
        WiringOf(wired.state, id) == WiringOf(state, id))
  }

  lemma WiredOneMore(state: State, front: seq<Planned>, last: Planned, luck: Luck, done: Wirings)
    requires WiredSoFar(state, front, luck, done) && last == PlannedFor(state, last.place, last.agent, last.input)
    requires forall p :: p in front ==> p.agent.id != last.agent.id
    requires !WireOne(done, last, luck).threw
    ensures WiredSoFar(state, front + [last], luck, WireOne(done, last, luck))
  {
    hide WireOne, PlannedFor, ReportOf, WiringAfter, WiringOf;
    OneWiring(state, done, last, luck);
    var planned, next := front + [last], WireOne(done, last, luck);
    forall k | 0 <= k < |planned|
      ensures WiringOf(next.state, planned[k].agent.id) == WiringAfter(state, planned[k], luck)
    {
      if k < |front| {
        assert planned[k] == front[k] && front[k] in front;
      }
    }
    forall id | forall p :: p in planned ==> p.agent.id != id ensures WiringOf(next.state, id) == WiringOf(state, id) {
      assert last in planned && forall p :: p in front ==> p in planned;
    }
  }

  lemma WireAllStep(state: State, front: seq<Planned>, last: Planned, luck: Luck)
    ensures WireAll(state, front + [last], luck) == WireOne(WireAll(state, front, luck), last, luck)
    ensures WireAll(state, front, luck).threw ==> WireAll(state, front + [last], luck).threw
  {
    var planned := front + [last];
    assert planned[..|planned| - 1] == front;
  }

  lemma WiredNone(state: State, luck: Luck)
    ensures WiredSoFar(state, [], luck, WireAll(state, [], luck))
  {
    hide ReportOf, WiringAfter;
  }

  /** Each agent is wired on its own: a refused call leaves its wiring as it was and the others wired. */
  lemma {:induction false} WiredEachOnItsOwn(state: State, planned: seq<Planned>, luck: Luck)
    requires Distinct(planned) && !WireAll(state, planned, luck).threw
    requires forall p :: p in planned ==> p == PlannedFor(state, p.place, p.agent, p.input)
    ensures WiredSoFar(state, planned, luck, WireAll(state, planned, luck))
  {
    hide PlannedFor, WiredSoFar, WireOne, WireAll;
    if planned != [] {
      var n := |planned| - 1;
      var front, last := planned[..n], planned[n];
      assert last in planned && (forall p :: p in front ==> p in planned) && front + [last] == planned;
      WireAllStep(state, front, last, luck);
      WiredEachOnItsOwn(state, front, luck);
      WiredOneMore(state, front, last, luck, WireAll(state, front, luck));
    } else {
      WiredNone(state, luck);
    }
  }

  /** An agent given twice is wired once: the second call's plan is no longer what was confirmed. */
  lemma GivenTwice(state: State, p: Planned, place: nat, luck: Luck)
    requires p == PlannedFor(state, p.place, p.agent, p.input) && p.Changes()
    requires WireOf(p) !in Failing(luck) && WireOf(p.(place := place)) !in Failing(luck)
    ensures var entries := WireAll(state, [p, p.(place := place)], luck).entries;
            |entries| == 2 && entries[0].report == Wired && entries[1].report == Failed
  {
    assert [p, p.(place := place)][..1] == [p] && [p][..0] == [];
    var once := WireAll(state, [p], luck);
    assert once == WireOne(WireAll(state, [], luck), p, luck);
    assert WiringOf(once.state, p.agent.id) == Some(Rewired(WiringOf(state, p.agent.id), p.input));
  }

  // ---------- What a run without a terminal needs ----------

  /** Up to trailing slashes. */
  predicate EndpointsAt(provider: Provider, urls: map<string, string>) {
    forall protocol :: protocol in urls ==>
        protocol in provider.endpoints && Unslashed(provider.endpoints[protocol]) == urls[protocol]
  }

  ghost predicate Agrees(provider: Provider, preset: Preset, answers: Answers)
    requires answers.base.Some? ==> answers.base.value.Base?
  {
    && provider.preset == Some(preset.id)
    && (answers.region.Some? ==> provider.region == answers.region)
    && (answers.plan.Some? ==> provider.plan == answers.plan)
    && (answers.base.Some? ==>
        EndpointsAt(provider, Rebased(Chosen(preset, answers.region, answers.plan), answers.base.value)))
  }

  /** The options complete the provider, and agree with the one that is here. */
  ghost predicate ProviderComplete(state: State, answers: Answers) {
    && answers.preset.Some?
    && PresetById(state.presets, answers.preset.value).Some?
    && var preset := PresetById(state.presets, answers.preset.value).value;
    && Known(preset.regions, answers.region) && Known(preset.plans, answers.plan)
    && (answers.base.Some? ==> answers.base.value.Base?)
    && (preset.id in state.providers ==> Agrees(state.providers[preset.id], preset, answers))
    && (preset.id !in state.providers && preset.userEndpoint ==> answers.base.Some?)
    && (preset.takesKey && !preset.takesNone && (preset.id in state.providers ==> state.providers[preset.id].keys == [])
        ==> answers.credential.Some?)
  }

  predicate IsHere(agents: seq<Agent>, id: string) {
    AgentById(agents, id).Some? && AgentById(agents, id).value.installed
  }

  /** The named agents are installed here, and if there are any, their model is given. */
  ghost predicate AgentsComplete(agents: seq<Agent>, answers: Answers) {
    answers.agents.Some? ==>
      match answers.agents.value
      case Nobody => true
      case All => (exists agent :: agent in agents && agent.installed) ==> answers.model.Some?
      case Ids(ids) => (forall id :: id in ids ==> IsHere(agents, id)) && (ids != [] ==> answers.model.Some?)
  }

  lemma {:induction false} InstalledIs(agents: seq<Agent>)
    ensures forall agent :: agent in Installed(agents) <==> agent in agents && agent.installed
  {
    if agents != [] {
      var front, last := agents[..|agents| - 1], agents[|agents| - 1];
      assert agents == front + [last];
      InstalledIs(front);
    }
  }

  lemma AgentByIdIs(agents: seq<Agent>, id: string)
    ensures AgentById(agents, id).Some? ==>
        AgentById(agents, id).value in agents && AgentById(agents, id).value.id == id
  {
    FindIs(agents, (a: Agent) => a.id == id);
  }

  /** `chosen` are installed agents with these ids, in this order. */
  predicate AreNamed(agents: seq<Agent>, ids: seq<string>, chosen: seq<Agent>) {
    && |chosen| == |ids|
    && forall k :: 0 <= k < |ids| ==> chosen[k].id == ids[k] && chosen[k].installed && chosen[k] in agents
  }

  lemma NoneNamed(agents: seq<Agent>)
    ensures AreNamed(agents, [], [])
  {
  }

  lemma OneMoreNamed(agents: seq<Agent>, ids: seq<string>, rest: seq<Agent>)
    requires ids != [] && IsHere(agents, ids[0]) && AreNamed(agents, ids[1..], rest)
    ensures AreNamed(agents, ids, [AgentById(agents, ids[0]).value] + rest)
  {
    AgentByIdIs(agents, ids[0]);
    hide AgentById;
    assert forall k :: 1 <= k < |ids| ==> ids[k] == ids[1..][k - 1];
  }

  /** `chosenAgents` accepts exactly ids of installed agents, and keeps their order. */
  lemma {:induction false} ByIdsIs(agents: seq<Agent>, ids: seq<string>)
    ensures ByIds(agents, ids) == Halt(Usage) || ByIds(agents, ids).Go?
    ensures ByIds(agents, ids).Go? <==> forall id :: id in ids ==> IsHere(agents, id)
    ensures ByIds(agents, ids).Go? ==> AreNamed(agents, ids, ByIds(agents, ids).value)
  {
    hide AgentById, AreNamed;
    if ids == [] {
      NoneNamed(agents);
    } else {
      assert ids[0] in ids && forall id :: id in ids[1..] ==> id in ids;
      assert forall id :: id in ids ==> id == ids[0] || id in ids[1..];
      ByIdsIs(agents, ids[1..]);
      if IsHere(agents, ids[0]) && ByIds(agents, ids[1..]).Go? {
        OneMoreNamed(agents, ids, ByIds(agents, ids[1..]).value);
      }
    }
  }

  lemma CheckedIs(state: State, answers: Answers, luck: Luck)
    requires luck.listsFirst.Listed?
    ensures Checked(state, answers, luck) == if AgentsComplete(state.agents, answers) then Go(()) else Halt(Usage)
  {
    InstalledIs(state.agents);
    assert Installed(state.agents) != [] ==> Installed(state.agents)[0] in Installed(state.agents);
    if answers.agents.Some? && answers.agents.value.Ids? {
      ByIdsIs(state.agents, answers.agents.value.ids);
    }
  }

  /** Nothing would move exactly when the provider is at the asked endpoints. */
  lemma MovesNothing(provider: Provider, chosen: map<string, Endpoint>, base: Base)
    requires base.Base?
    ensures Moved(chosen, Some(base), provider.endpoints) == map[] <==> EndpointsAt(provider, Rebased(chosen, base))
  {
    var asked, moved := Rebased(chosen, base), Moved(chosen, Some(base), provider.endpoints);
    if moved == map[] {
      forall protocol | protocol in asked
        ensures protocol in provider.endpoints && Unslashed(provider.endpoints[protocol]) == asked[protocol]
      {
        assert protocol !in moved;
      }
    }
  }

  lemma MovedOfNone(chosen: map<string, Endpoint>, here: map<string, string>)
    ensures Moved(chosen, None, here) == map[]
  {
  }

  lemma AgreesIs(provider: Provider, preset: Preset, answers: Answers)
    ensures MoveOf(provider, preset, Chosen(preset, answers.region, answers.plan), answers.base, answers, None) ==
              if (answers.base.Some? ==> answers.base.value.Base?) && Agrees(provider, preset, answers) then Go(None)
              else Halt(Usage)
  {
    hide Chosen, Rebased, Moved, EndpointsAt;
    var chosen := Chosen(preset, answers.region, answers.plan);
    MovedOfNone(chosen, provider.endpoints);
    if answers.base.Some? && answers.base.value.Base? {
      MovesNothing(provider, chosen, answers.base.value);
    }
  }

  /** The reads before the first write answer: presets, providers and, when agents are named, the agents. */
  predicate ReadsAnswer(answers: Answers, luck: Luck) {
    && luck.presets && luck.providers
    && (answers.agents.Some? && !answers.agents.value.Nobody? ==> !luck.listsFirst.Unreachable?)
  }

  lemma CheckedHolds(state: State, answers: Answers, luck: Luck)
    ensures Checked(state, answers, luck) ==
              if answers.agents.Some? && !answers.agents.value.Nobody? && luck.listsFirst.Unreachable? then Halt(Threw)
              else if luck.listsFirst.Listed? ==> AgentsComplete(state.agents, answers) then Go(())
              else Halt(Usage)
  {
    if luck.listsFirst.Listed? {
      CheckedIs(state, answers, luck);
    }
  }

  /** Without a terminal, the wizard goes on exactly when its reads answer and the provider and the
      agents are complete. */
  lemma DecidesExactly(state: State, answers: Answers, luck: Luck)
    ensures Decide(state, answers, None, luck).Go? <==>
              && ReadsAnswer(answers, luck) && ProviderComplete(state, answers)
              && (luck.listsFirst.Listed? ==> AgentsComplete(state.agents, answers))
    ensures Decide(state, answers, None, luck).Halt? ==>
              var outcome := Decide(state, answers, None, luck).outcome;
              || (outcome == Threw && !ReadsAnswer(answers, luck))
              || (outcome == Usage && !(ProviderComplete(state, answers) && AgentsComplete(state.agents, answers)))
    ensures Decide(state, answers, None, luck).Go? ==>
              var d := Decide(state, answers, None, luck).value;
              && PresetById(state.presets, answers.preset.value) == Some(d.preset)
              && d.existing == (if d.preset.id in state.providers then Some(state.providers[d.preset.id]) else None)
              && d.region == answers.region && d.plan == answers.plan && d.moveTo == None
                  && d.credential == answers.credential
              && d.endpoints == if d.existing.Some? || answers.base.None? then None
                                else Some(Rebased(Chosen(d.preset, d.region, d.plan), answers.base.value))
  {
    hide Known, Chosen, Rebased, PresetById, MoveOf, Agrees, AgentsComplete, Checked;
    CheckedHolds(state, answers, luck);
    if answers.preset.Some? && PresetById(state.presets, answers.preset.value).Some? {
      var preset := PresetById(state.presets, answers.preset.value).value;
      if preset.id in state.providers {
        AgreesIs(state.providers[preset.id], preset, answers);
      }
    }
  }

  ghost predicate Complete(state: State, answers: Answers) {
    ProviderComplete(state, answers) && AgentsComplete(state.agents, answers)
  }

  lemma AfterWritesWrites(state: State, d: Decision, answers: Answers, luck: Luck)
    ensures AfterWrites(state, d, answers, None, luck).trace != []
  {
    hide WireAgents;
  }

  /** Without a terminal, and when the daemon's reads answer, whatever is missing or wrong fails before
      the first write, and nothing else does. */
  lemma FailsBeforeWriting(state: State, answers: Answers, luck: Luck)
    requires luck.presets && luck.providers && luck.listsFirst.Listed?
    ensures !Complete(state, answers) ==> Run(state, answers, None, luck) == Ran(Usage, state, [])
    ensures Complete(state, answers) ==> Run(state, answers, None, luck).trace != []
  {
    hide Decide, ProviderComplete, AgentsComplete, AfterWrites, ApplyAll, Writes;
    DecidesExactly(state, answers, luck);
    if Complete(state, answers) {
      var writes := Writes(Decide(state, answers, None, luck).value);
      var n := FirstFailing(writes, Failing(luck));
      assert n < |writes| ==> writes[..n + 1] != [];
      AfterWritesWrites(ApplyAll(state, writes), Decide(state, answers, None, luck).value, answers, luck);
    }
  }

  // ---------- Through the steps of a run without a terminal ----------

  /** The provider needs no further write under these answers. */
  ghost predicate Settled(state: State, answers: Answers) {
    && ProviderComplete(state, answers)
    && var id := PresetById(state.presets, answers.preset.value).value.id;
    && id in state.providers && (answers.credential.Some? ==> state.providers[id].keys != [])
  }

  lemma CreatedSettles(state: State, answers: Answers, d: Decision)
    requires ProviderComplete(state, answers) && PresetById(state.presets, answers.preset.value) == Some(d.preset)
    requires d.preset.id !in state.providers && d.region == answers.region && d.plan == answers.plan
        && d.credential == answers.credential
    requires d.endpoints == if answers.base.None? then None
                            else Some(Rebased(Chosen(d.preset, d.region, d.plan), answers.base.value))
    ensures Settled(Apply(state, Create(d.preset, d.region, d.plan, d.endpoints, d.credential)), answers)
  {
    hide Chosen, Known, PresetById, Unslashed;
    var next := Apply(state, Create(d.preset, d.region, d.plan, d.endpoints, d.credential));
    var chosen := Chosen(d.preset, d.region, d.plan);
    if answers.base.Some? {
      forall protocol | protocol in chosen
        ensures Unslashed(Rebased(chosen, answers.base.value)[protocol]) ==
            Rebased(chosen, answers.base.value)[protocol]
      {
        RebasedEnds(chosen, answers.base.value, protocol);
      }
      assert EndpointsAt(next.providers[d.preset.id], Rebased(chosen, answers.base.value));
    }
    assert Agrees(next.providers[d.preset.id], d.preset, answers);
  }

  /** More keys, and other models, leave a provider complete. */
  lemma KeysKeep(state: State, next: State, answers: Answers, id: string)
    requires ProviderComplete(state, answers) && id == PresetById(state.presets, answers.preset.value).value.id
    requires SameCatalog(state, next) && id in state.providers && id in next.providers
    requires next.providers[id] ==
        state.providers[id].(keys := next.providers[id].keys, models := next.providers[id].models)
    requires state.providers[id].keys != [] ==> next.providers[id].keys != []
    ensures ProviderComplete(next, answers)
  {
    hide Known, PresetById, Chosen, Rebased;
  }

  lemma UsedSettles(state: State, answers: Answers, d: Decision)
    requires ProviderComplete(state, answers) && PresetById(state.presets, answers.preset.value) == Some(d.preset)
    requires d.preset.id in state.providers && d.existing == Some(state.providers[d.preset.id])
    requires d.moveTo == None && d.credential == answers.credential
    ensures Settled(ApplyAll(state, Writes(d)), answers)
  {
    hide Known, PresetById, Chosen, Rebased, EndpointsAt, ProviderComplete;
    var writes := Writes(d);
    if writes == [] {
      assert ApplyAll(state, writes) == state;
    } else {
      assert writes[..0] == [] && ApplyAll(state, writes[..0]) == state;
      var next := ApplyAll(state, writes);
      assert next.providers[d.preset.id] == d.existing.value.(keys := next.providers[d.preset.id].keys);
      assert next.providers[d.preset.id].keys != [];
      KeysKeep(state, next, answers, d.preset.id);
    }
  }

  /** What is written of the provider settles it. */
  lemma WritesSettle(state: State, answers: Answers, luck: Luck)
    requires Decide(state, answers, None, luck).Go?
    ensures var d := Decide(state, answers, None, luck).value;
            var next := ApplyAll(state, Writes(d));
            Settled(next, answers) && SameCatalog(state, next) && next.wirings == state.wirings
  {
    hide Decide, Settled, ProviderComplete, Apply, Chosen, Rebased, PresetById;
    DecidesExactly(state, answers, luck);
    var d := Decide(state, answers, None, luck).value;
    var writes := Writes(d);
    WritesAreNoWires(d);
    ApplyAllKeeps(state, writes);
    if d.existing.None? {
      CreatedSettles(state, answers, d);
      assert writes[..0] == [] && ApplyAll(state, writes[..0]) == state;
    } else {
      UsedSettles(state, answers, d);
    }
  }

  function Refreshed(state: State, id: string, luck: Luck): State {
    StateAfter(state, Refresh(id, luck.models), luck)
  }

  lemma RefreshSettles(state: State, answers: Answers, id: string, luck: Luck)
    requires Settled(state, answers)
    ensures var next := Refreshed(state, id, luck);
            Settled(next, answers) && SameCatalog(state, next) && next.wirings == state.wirings
  {
    hide PresetById;
    KeysKeep(state, Refreshed(state, id, luck), answers, PresetById(state.presets, answers.preset.value).value.id);
  }

  /** Where a run without a terminal is when it comes to the agents. */
  function Ready(state: State, answers: Answers, luck: Luck): State {
    var decided := Decide(state, answers, None, luck);
    if decided.Halt? then state else Refreshed(ApplyAll(state, Writes(decided.value)), decided.value.preset.id, luck)
  }

  /** A run that got past its writes, from the agents on. */
  lemma RunFromReady(state: State, answers: Answers, luck: Luck)
    requires Decide(state, answers, None, luck).Go?
    requires forall e :: e in Writes(Decide(state, answers, None, luck).value) ==> e !in Failing(luck)
    requires !EndsAtRefresh(Refresh(Decide(state, answers, None, luck).value.preset.id, luck.models), luck)
    ensures var d := Decide(state, answers, None, luck).value;
            var next := Ready(state, answers, luck);
            var models := ModelsOf(next, d.preset.id);
            var refresh := Refresh(d.preset.id, luck.models);
            var ran := WireAgents(next, ResultOf(d, |models|, refresh in luck.refused), models, answers, None, luck);
            && Run(state, answers, None, luck) == Ran(ran.outcome, ran.state, Writes(d) + [refresh] + ran.trace)
            && Settled(next, answers) && SameCatalog(state, next) && next.wirings == state.wirings
  {
    hide Decide, Writes, ApplyAll, WireAgents, Settled, ModelsOf, StateAfter;
    WritesSettle(state, answers, luck);
    var d := Decide(state, answers, None, luck).value;
    var writes := Writes(d);
    RefreshSettles(ApplyAll(state, writes), answers, d.preset.id, luck);
    var n := FirstFailing(writes, Failing(luck));
    assert forall k: nat :: k < |writes| ==> writes[k] in writes;
    assert writes[..n] == writes;
    var next := Ready(state, answers, luck);
    var models := ModelsOf(next, d.preset.id);
    var refresh := Refresh(d.preset.id, luck.models);
    var ran := WireAgents(next, ResultOf(d, |models|, refresh in luck.refused), models, answers, None, luck);
    assert writes + ([refresh] + ran.trace) == writes + [refresh] + ran.trace;
  }

  /** A run that is done has had none of its writes fail, nor ended at the refresh. */
  lemma DoneWrote(state: State, answers: Answers, luck: Luck)
    ensures Run(state, answers, None, luck).outcome.Done? ==>
              && Decide(state, answers, None, luck).Go?
              && var d := Decide(state, answers, None, luck).value;
              && (forall e :: e in Writes(d) ==> e !in Failing(luck))
              && !EndsAtRefresh(Refresh(d.preset.id, luck.models), luck)
  {
    hide Decide, Writes, ApplyAll, StateAfter, WireAgents;
    DecidesExactly(state, answers, luck);
  }

  /** Without a terminal, what is selected depends only on the answers and the agents listed. */
  lemma SelectedAlone(a: State, b: State, m: seq<string>, n: seq<string>, answers: Answers)
    requires a.agents == b.agents
    ensures Select(a, m, answers, None) == Select(b, n, answers, None)
    ensures Select(a, m, answers, None).Halt? ==> Select(a, m, answers, None).outcome == Usage
    ensures Select(a, m, answers, None).Go? ==> AgentsComplete(a.agents, answers)
  {
    var luck := Luck({}, {}, {}, true, true, true, Listed, Listed, []);
    hide TiersKnown, AgentsComplete;
    CheckedIs(a, answers, luck);
    if answers.agents.Some? && answers.agents.value.Ids? {
      ByIdsIs(a.agents, answers.agents.value.ids);
    }
  }

  // ---------- Running the wizard again ----------

  /** Wiring again the same way changes nothing. */
  lemma RewiringAgain(before: Option<Wiring>, input: Input)
    ensures Rewired(Some(Rewired(before, input)), input) == Rewired(before, input)
  {
  }

  /** Planning again after the wiring: only the agents whose wiring was refused change. */
  lemma PlannedAgain(state: State, later: State, p: Planned, luck: Luck)
    requires p == PlannedFor(state, p.place, p.agent, p.input)
    requires WiringOf(later, p.agent.id) == WiringAfter(state, p, luck)
    ensures PlannedFor(later, p.place, p.agent, p.input).Changes() <==> ReportOf(p, luck) == Failed
  {
    hide Rewired, WiringOf, SameWiring;
    RewiringAgain(WiringOf(state, p.agent.id), p.input);
  }

  predicate DistinctAgents(agents: seq<Agent>) {
    forall j, k :: 0 <= j < k < |agents| ==> agents[j].id != agents[k].id
  }

  lemma PlannedKeeps(state: State)
    ensures forall k: nat, a: Agent, i: Input ::
              var p := PlannedFor(state, k, a, i); p.place == k && p.agent == a && p.input == i
  {
  }

  lemma PlanningIs(state: State, selection: Selection)
    ensures |Planning(state, selection)| == |selection.agents|
    ensures forall k :: 0 <= k < |selection.agents| ==>
              var p := Planning(state, selection)[k];
              p.place == k && p.agent == selection.agents[k] && p.input == InputOf(p.agent, selection)
                  && p == PlannedFor(state, p.place, p.agent, p.input)
    ensures forall p :: p in Planning(state, selection) ==> p == PlannedFor(state, p.place, p.agent, p.input)
    ensures DistinctAgents(selection.agents) ==> Distinct(Planning(state, selection))
  {
    hide PlannedFor, InputOf;
    PlannedKeeps(state);
  }

  /** The second planning, place by place. */
  lemma PlanningAgain(state: State, selection: Selection, luck: Luck, later: State)
    requires DistinctAgents(selection.agents) && !WireAll(state, Planning(state, selection), luck).threw
    requires later.wirings == WireAll(state, Planning(state, selection), luck).state.wirings
    ensures var entries := WireAll(state, Planning(state, selection), luck).entries;
            && |entries| == |selection.agents|
            && forall k :: 0 <= k < |entries| ==>
                 (Planning(later, selection)[k].Changes() <==> entries[k].report == Failed)
  {
    hide Planning, InputOf, PlannedFor, WireAll, WiringAfter, ReportOf;
    var planned := Planning(state, selection);
    PlanningIs(state, selection);
    PlanningIs(later, selection);
    WiredEachOnItsOwn(state, planned, luck);
    var wired := WireAll(state, planned, luck);
    forall k | 0 <= k < |planned|
      ensures Planning(later, selection)[k].Changes() <==> wired.entries[k].report == Failed
    {
      assert WiringOf(later, planned[k].agent.id) == WiringOf(wired.state, planned[k].agent.id);
      PlannedAgain(state, later, planned[k], luck);
    }
  }

  lemma SettledHasPreset(state: State, answers: Answers)
    requires Settled(state, answers)
    ensures answers.preset.Some? && PresetById(state.presets, answers.preset.value).Some?
  {
  }

  /** A run without a terminal that is done, and how it came to its entries. */
  lemma DoneFromReady(state: State, answers: Answers, luck: Luck) returns (selection: Selection)
    requires luck.lists.Listed? && answers.yes && Run(state, answers, None, luck).outcome.Done?
    ensures var ran := Run(state, answers, None, luck);
            var next := Ready(state, answers, luck);
            var result := ran.outcome.result;
            && Settled(next, answers) && SameCatalog(state, next) && next.wirings == state.wirings
            && result.provider == PresetById(state.presets, answers.preset.value).value.id
            && AgentsComplete(state.agents, answers)
            && Select(next, [], answers, None) == Go(selection)
            && (selection.agents == [] ==> result.agents == [] && ran.state == next)
            && (selection.agents != [] ==>
                  var wired := WireAll(next, Planning(next, selection), luck);
                  !wired.threw && ran.state == wired.state && result.agents == wired.entries)
  {
    hide Decide, Settled, Run, Ready, Select, Planning, Previews, WireAll, AgentsComplete, Writes, Changing,
        FirstFailing,
         PresetById, StateAfter;
    DecidesExactly(state, answers, luck);
    DoneWrote(state, answers, luck);
    RunFromReady(state, answers, luck);
    var next := Ready(state, answers, luck);
    SettledHasPreset(next, answers);
    var models := ModelsOf(next, Decide(state, answers, None, luck).value.preset.id);
    SelectedAlone(next, next, models, [], answers);
    selection := Select(next, models, answers, None).value;
  }

  predicate DistinctEntries(entries: seq<Entry>) {
    forall j, k :: 0 <= j < k < |entries| ==> entries[j].agent != entries[k].agent
  }

  /** Only the models of one provider differ. */
  predicate SameButModels(a: State, b: State, id: string) {
    && SameCatalog(a, b) && a.wirings == b.wirings
    && id in a.providers && id in b.providers
    && b.providers == a.providers[id := a.providers[id].(models := b.providers[id].models)]
  }

  /** The places whose wiring failed. */
  ghost predicate FailedAgent(entries: seq<Entry>, agent: string) {
    exists k :: 0 <= k < |entries| && entries[k].agent == agent && entries[k].report == Failed
  }

  ghost predicate NoneFailed(entries: seq<Entry>) {
    forall k :: 0 <= k < |entries| ==> entries[k].report != Failed
  }

  /** The second entries are for the same agents; all are unchanged but those whose wiring failed. */
  ghost predicate Redone(before: seq<Entry>, after: seq<Entry>) {
    && |after| == |before|
    && (forall k :: 0 <= k < |after| ==> after[k].agent == before[k].agent && after[k].input == before[k].input)
    && (forall k :: 0 <= k < |after| ==> (after[k].report == Unchanged <==> before[k].report != Failed))
  }

  /** Nothing but refreshing models, and wiring agents whose wiring failed. */
  ghost predicate OnlyRetries(trace: seq<Effect>, before: seq<Entry>) {
    forall e :: e in trace ==> e.Refresh? || e.Preview? || e.Show? || (e.Wire? && FailedAgent(before, e.agent))
  }

  /** The daemon's reads and previews answer, and no call is lost. */
  predicate Answering(luck: Luck) {
    && luck.presets && luck.providers && luck.rereads && !luck.listsFirst.Unreachable? && !luck.lists.Unreachable?
    && luck.lost == {} && forall e :: e in luck.refused ==> !e.Preview?
  }

  ghost predicate IsRepeat(first: Ran, second: Ran, again: Luck)
    requires first.outcome.Done?
  {
    var before := first.outcome.result.agents;
    && OnlyRetries(second.trace, before)
    && (NoneFailed(before) ==> SameButModels(first.state, second.state, first.outcome.result.provider))
    && (second.outcome.Done? ==>
          && !second.outcome.result.created && !second.outcome.result.updated
          && if again.lists.Listed? then Redone(before, second.outcome.result.agents)
              else second.outcome.result.agents == [])
    && (Answering(again) ==> second.outcome.Done?)
  }

  /** Run again with the same answers, the wizard writes nothing of the provider but its models. */
  lemma WritesNothingAgain(state: State, answers: Answers, again: Luck)
    requires Settled(state, answers) && AgentsComplete(state.agents, answers)
    ensures Decide(state, answers, None, again).Go? <==> ReadsAnswer(answers, again)
    ensures Decide(state, answers, None, again).Halt? ==> Decide(state, answers, None, again).outcome == Threw
    ensures Decide(state, answers, None, again).Go? ==>
              var d := Decide(state, answers, None, again).value;
              && Writes(d) == [] && d.existing.Some? && d.moveTo.None? && d.preset.id in state.providers
              && PresetById(state.presets, answers.preset.value) == Some(d.preset)
              && SameButModels(state, Ready(state, answers, again), d.preset.id)
  {
    hide Decide, ProviderComplete, AgentsComplete, PresetById;
    DecidesExactly(state, answers, again);
  }

  lemma WiringSettles(state: State, answers: Answers, planned: seq<Planned>, luck: Luck)
    requires Settled(state, answers)
    ensures Settled(WireAll(state, planned, luck).state, answers)
  {
    hide WireAll, PresetById, Chosen, Rebased, EndpointsAt, Known;
    EntriesFollow(state, planned, luck);
  }

  lemma PreviewsPass(planned: seq<Planned>, failing: set<Effect>)
    requires forall e :: e in failing ==> !e.Preview?
    ensures FirstFailing(Previews(planned), failing) == |Previews(planned)|
  {
    hide Previews;
    PreviewsAre(planned);
    assert forall k: nat :: k < |Previews(planned)| ==> Previews(planned)[k] in Previews(planned);
  }

  lemma DistinctFromEntries(selection: Selection, entries: seq<Entry>)
    requires DistinctEntries(entries) && |entries| == |selection.agents|
    requires forall k :: 0 <= k < |entries| ==> entries[k].agent == selection.agents[k].id
    ensures DistinctAgents(selection.agents)
  {
  }

  lemma {:induction false} WiringNothing(state: State, planned: seq<Planned>, luck: Luck)
    requires !Changing(planned)
    ensures WireAll(state, planned, luck).state == state
  {
    if planned != [] {
      assert planned[|planned| - 1] in planned && forall p :: p in planned[..|planned| - 1] ==> p in planned;
      WiringNothing(state, planned[..|planned| - 1], luck);
    }
  }

  lemma {:induction false} NothingLost(state: State, planned: seq<Planned>, luck: Luck)
    requires luck.lost == {}
    ensures !WireAll(state, planned, luck).threw
  {
    if planned != [] {
      NothingLost(state, planned[..|planned| - 1], luck);
    }
  }

  lemma RetryIsOfAFailure(replanned: seq<Planned>, before: seq<Entry>, e: Effect)
    requires e.Wire? && Offers(replanned, e) && |before| == |replanned|
    requires forall k :: 0 <= k < |before| ==>
               before[k].agent == replanned[k].agent.id && (replanned[k].Changes() <==> before[k].report == Failed)
    ensures FailedAgent(before, e.agent)
  {
    var p :| p in replanned && p.Changes() && e == Wire(p.place, p.agent.id, p.input, p.plan.value);
    var k :| 0 <= k < |replanned| && replanned[k] == p;
    assert before[k].agent == e.agent && before[k].report == Failed;
  }

  lemma RetryTrace(calls: seq<Effect>, n: nat, planned: seq<Planned>, wires: seq<Effect>, before: seq<Entry>)
    requires n <= |calls| && forall e :: e in calls ==> e.Preview?
    requires forall e :: e in wires ==> e.Wire? && FailedAgent(before, e.agent)
    ensures n < |calls| ==> OnlyRetries(calls[..n + 1], before)
    ensures OnlyRetries(calls + [Show(planned)] + [] + wires, before)
  {
    hide FailedAgent;
  }

  /** The second preview and wiring of the same selection, however they go. */
  lemma WiringAgain(state: State, selection: Selection, luck: Luck, later: State, result: Result,
                    answers: Answers, again: Luck)
    requires answers.yes && !WireAll(state, Planning(state, selection), luck).threw
    requires later.wirings == WireAll(state, Planning(state, selection), luck).state.wirings
    requires DistinctEntries(WireAll(state, Planning(state, selection), luck).entries)
    ensures var before := WireAll(state, Planning(state, selection), luck).entries;
            var ran := PlanAndWire(later, result, selection, answers, None, again);
            && OnlyRetries(ran.trace, before)
            && (NoneFailed(before) ==> ran.state == later)
            && (ran.outcome.Done? ==>
                  ran.outcome.result == result.(agents := ran.outcome.result.agents)
                      && Redone(before, ran.outcome.result.agents))
            && (Answering(again) ==> ran.outcome.Done?)
  {
    hide Planning, InputOf, PlannedFor, WireAll, Previews, FirstFailing, FailedAgent, DistinctEntries, OnlyRetries;
    var planned, replanned := Planning(state, selection), Planning(later, selection);
    var before := WireAll(state, planned, luck).entries;
    var wired := WireAll(later, replanned, again);
    PlanningIs(state, selection);
    PlanningIs(later, selection);
    EntriesFollow(state, planned, luck);
    EntriesFollow(later, replanned, again);
    DistinctFromEntries(selection, before);
    PlanningAgain(state, selection, luck, later);
    PreviewsAre(replanned);
    WireTrace(later, replanned, again);
    if Answering(again) {
      PreviewsPass(replanned, Failing(again));
      NothingLost(later, replanned, again);
    }
    if NoneFailed(before) {
      WiringNothing(later, replanned, again);
    }
    forall e | e in wired.trace ensures e.Wire? && FailedAgent(before, e.agent) {
      RetryIsOfAFailure(replanned, before, e);
    }
    RetryTrace(Previews(replanned), FirstFailing(Previews(replanned), Failing(again)), replanned, wired.trace, before);
  }

  /** The second run when its first reads fail. */
  lemma NotReadAgain(first: Ran, answers: Answers, again: Luck)
    requires first.outcome.Done? && Settled(first.state, answers)
    requires first.outcome.result.provider == PresetById(first.state.presets, answers.preset.value).value.id
    requires Decide(first.state, answers, None, again) == Halt(Threw) && !ReadsAnswer(answers, again)
    ensures IsRepeat(first, Run(first.state, answers, None, again), again)
  {
    hide Decide, ProviderComplete, PresetById, Redone, NoneFailed, FailedAgent;
    var id := first.outcome.result.provider;
    assert first.state.providers == first.state.providers[id := first.state.providers[id]];
  }

  lemma ReadyKeeps(state: State, later: State, id: string)
    requires SameButModels(state, later, id)
    ensures SameCatalog(state, later) && later.wirings == state.wirings
  {
  }

  /** A run that writes nothing, from the refresh on. */
  lemma RunAfterNoWrites(state: State, answers: Answers, luck: Luck)
    requires Decide(state, answers, None, luck).Go? && Writes(Decide(state, answers, None, luck).value) == []
    ensures var d := Decide(state, answers, None, luck).value;
            var refresh := Refresh(d.preset.id, luck.models);
            var next := Ready(state, answers, luck);
            var models := ModelsOf(next, d.preset.id);
            Run(state, answers, None, luck) ==
              if EndsAtRefresh(refresh, luck) then Ran(Threw, next, [refresh])
              else
                var ran := WireAgents(next, ResultOf(d, |models|, refresh in luck.refused), models, answers, None,
                    luck);
                Ran(ran.outcome, ran.state, [refresh] + ran.trace)
  {
    hide Decide, Writes, WireAgents, StateAfter, ModelsOf;
    var d := Decide(state, answers, None, luck).value;
    assert ApplyAll(state, []) == state;
    var ran := AfterWrites(state, d, answers, None, luck);
    assert [] + ran.trace == ran.trace;
  }

  lemma OnlyARefresh(refresh: Effect, before: seq<Entry>)
    requires refresh.Refresh?
    ensures OnlyRetries([refresh], before)
  {
  }

  lemma NothingToRedo(before: seq<Entry>)
    ensures OnlyRetries([], before) && Redone([], [])
  {
  }

  lemma RetriesAfter(refresh: Effect, trace: seq<Effect>, before: seq<Entry>)
    requires refresh.Refresh?
    ensures OnlyRetries(trace, before) ==> OnlyRetries([refresh] + trace, before)
  {
    hide FailedAgent;
  }

  /** The second run when it comes to the refresh. */
  lemma WiresAgain(next: State, selection: Selection, luck: Luck, first: Ran, answers: Answers, again: Luck)
    requires answers.yes && first.outcome.Done? && DistinctEntries(first.outcome.result.agents)
    requires Settled(first.state, answers) && AgentsComplete(first.state.agents, answers)
    requires first.outcome.result.provider == PresetById(first.state.presets, answers.preset.value).value.id
    requires SameCatalog(next, first.state) && Select(next, [], answers, None) == Go(selection)
    requires if selection.agents == [] then first.outcome.result.agents == [] && first.state == next
             else var wired := WireAll(next, Planning(next, selection), luck);
                  !wired.threw && first.state == wired.state && first.outcome.result.agents == wired.entries
    requires Decide(first.state, answers, None, again).Go?
    ensures IsRepeat(first, Run(first.state, answers, None, again), again)
  {
    hide Run, Decide, Ready, Settled, WireAll, PlanAndWire, Select, Planning, Redone, OnlyRetries,
         Writes, ModelsOf, AgentsComplete, DistinctEntries, NoneFailed, SameButModels, PresetById;
    WritesNothingAgain(first.state, answers, again);
    var d := Decide(first.state, answers, None, again).value;
    var refresh := Refresh(d.preset.id, again.models);
    var before := first.outcome.result.agents;
    var later := Ready(first.state, answers, again);
    OnlyARefresh(refresh, before);
    RunAfterNoWrites(first.state, answers, again);
    if !EndsAtRefresh(refresh, again) {
      var models := ModelsOf(later, d.preset.id);
      var result := ResultOf(d, |models|, refresh in again.refused);
      var ran := WireAgents(later, result, models, answers, None, again);
      ReadyKeeps(first.state, later, d.preset.id);
      SelectedAlone(next, later, [], models, answers);
      NothingToRedo(before);
      if again.lists.Listed? && selection.agents != [] {
        WiringAgain(next, selection, luck, later, result, answers, again);
      }
      RetriesAfter(refresh, ran.trace, before);
    }
  }

  /** Run again after a run with `--yes` that is done, whatever the daemon then refuses or fails to
      answer, the wizard creates, moves and adds nothing and wires only agents whose wiring failed.
      If it is done again it reports every other one unchanged, and it is when the daemon answers. */
  lemma RunningAgain(state: State, answers: Answers, luck: Luck, again: Luck)
    requires answers.yes && luck.lists.Listed?
    ensures var first := Run(state, answers, None, luck);
            first.outcome.Done? && DistinctEntries(first.outcome.result.agents) ==>
              IsRepeat(first, Run(first.state, answers, None, again), again)
  {
    hide Run, Decide, Ready, Settled, WireAll, Select, Planning, AgentsComplete, DistinctEntries, IsRepeat, PresetById;
    var first := Run(state, answers, None, luck);
    if first.outcome.Done? && DistinctEntries(first.outcome.result.agents) {
      var selection := DoneFromReady(state, answers, luck);
      var next := Ready(state, answers, luck);
      var planned := Planning(next, selection);
      WiringSettles(next, answers, planned, luck);
      EntriesFollow(next, planned, luck);
      WritesNothingAgain(first.state, answers, again);
      if Decide(first.state, answers, None, again).Halt? {
        NotReadAgain(first, answers, again);
      } else {
        WiresAgain(next, selection, luck, first, answers, again);
      }
    }
  }

  // ---------- How a run ends ----------

  /** The entries report the agents, each once and in order. */
  predicate Reports(entries: seq<Entry>, agents: seq<Agent>) {
    |entries| == |agents| && forall k :: 0 <= k < |agents| ==> entries[k].agent == agents[k].id
  }

  /** A wiring call that was lost. */
  predicate LostWire(trace: seq<Effect>, luck: Luck) {
    exists e :: e in trace && e.Wire? && e in luck.lost
  }

  lemma {:induction false} ThrowsByALostWire(state: State, planned: seq<Planned>, luck: Luck)
    ensures WireAll(state, planned, luck).threw ==> LostWire(WireAll(state, planned, luck).trace, luck)
  {
    if planned != [] {
      var done := WireAll(state, planned[..|planned| - 1], luck);
      ThrowsByALostWire(state, planned[..|planned| - 1], luck);
      var wired := WireAll(state, planned, luck);
      if wired.threw && !done.threw {
        assert wired.trace[|done.trace|] in wired.trace;
      }
    }
  }

  lemma LostLater(front: seq<Effect>, trace: seq<Effect>, luck: Luck)
    ensures LostWire(trace, luck) ==> LostWire(front + trace, luck)
  {
    if LostWire(trace, luck) {
      var e :| e in trace && e.Wire? && e in luck.lost;
      assert e in front + trace;
    }
  }

  lemma PlanAndWireEnds(state: State, result: Result, selection: Selection, answers: Answers,
                        person: Option<Person>, luck: Luck)
    ensures var ran := PlanAndWire(state, result, selection, answers, person, luck);
            && (ran.outcome.Done? ==> Reports(ran.outcome.result.agents, selection.agents))
            && (!ran.outcome.Done? && ran.state != state ==> ran.outcome.Threw? && LostWire(ran.trace, luck))
  {
    hide Planning, Previews, WireAll, MayWire, Asks, LostWire;
    var planned := Planning(state, selection);
    PlanningIs(state, selection);
    EntriesFollow(state, planned, luck);
    ThrowsByALostWire(state, planned, luck);
    LostLater(Previews(planned) + [Show(planned)] + Asks(planned, answers, person),
        WireAll(state, planned, luck).trace, luck);
  }

  lemma WireAgentsEnds(state: State, result: Result, models: seq<string>, answers: Answers,
                       person: Option<Person>, luck: Luck)
    requires result.agents == []
    ensures var ran := WireAgents(state, result, models, answers, person, luck);
            && (ran.outcome.Done? && luck.lists.Listed? ==>
                  AgentsOf(state, answers, person).Go?
                      && Reports(ran.outcome.result.agents, AgentsOf(state, answers, person).value))
            && (ran.outcome.Done? && !luck.lists.Listed? ==> ran.outcome.result.agents == [])
            && (!ran.outcome.Done? && ran.state != state ==> ran.outcome.Threw? && LostWire(ran.trace, luck))
  {
    hide PlanAndWire, AgentsOf, ModelOf, TiersOf, LostWire;
    var selected := Select(state, models, answers, person);
    if selected.Go? {
      PlanAndWireEnds(state, result, selected.value, answers, person, luck);
    }
  }

  lemma CallKeepsWirings(state: State, effect: Effect, luck: Luck)
    requires !effect.Wire?
    ensures StateAfter(state, effect, luck).wirings == state.wirings
        && SameCatalog(StateAfter(state, effect, luck), state)
  {
  }

  lemma FirstAreNoWires(writes: seq<Effect>, n: nat)
    requires n <= |writes| && forall e :: e in writes ==> !e.Wire?
    ensures forall e :: e in writes[..n] ==> !e.Wire?
  {
  }

  lemma SameAgentsOf(a: State, b: State, answers: Answers, person: Option<Person>)
    requires a.agents == b.agents
    ensures AgentsOf(a, answers, person) == AgentsOf(b, answers, person)
  {
  }

  /** Over every run: one that is done reports each chosen agent once and in order; one that is not
      leaves every agent as it was, unless the connection broke at a wiring call. */
  lemma EveryRunEnds(state: State, answers: Answers, person: Option<Person>, luck: Luck)
    ensures var ran := Run(state, answers, person, luck);
            && (ran.outcome.Done? && luck.lists.Listed? ==>
                  AgentsOf(state, answers, person).Go?
                      && Reports(ran.outcome.result.agents, AgentsOf(state, answers, person).value))
            && (ran.outcome.Done? && !luck.lists.Listed? ==> ran.outcome.result.agents == [])
            && (!ran.outcome.Done? && ran.state.wirings != state.wirings ==>
                ran.outcome.Threw? && LostWire(ran.trace, luck))
  {
    hide Decide, Writes, WireAgents, AgentsOf, Reports, ApplyAll, FirstFailing, StateAfter, LostWire;
    var decided := Decide(state, answers, person, luck);
    if decided.Go? {
      var d := decided.value;
      var writes, refresh := Writes(d), Refresh(d.preset.id, luck.models);
      var n := FirstFailing(writes, Failing(luck));
      WritesAreNoWires(d);
      if n < |writes| {
        FirstAreNoWires(writes, n);
        ApplyAllKeeps(state, writes[..n]);
        assert writes[n] in writes;
        CallKeepsWirings(ApplyAll(state, writes[..n]), writes[n], luck);
      } else {
        ApplyAllKeeps(state, writes);
        var s := ApplyAll(state, writes);
        CallKeepsWirings(s, refresh, luck);
        if !EndsAtRefresh(refresh, luck) {
          var next := StateAfter(s, refresh, luck);
          var models := ModelsOf(next, d.preset.id);
          var result := ResultOf(d, |models|, refresh in luck.refused);
          var ran := WireAgents(next, result, models, answers, person, luck);
          WireAgentsEnds(next, result, models, answers, person, luck);
          SameAgentsOf(state, next, answers, person);
          LostLater([refresh], ran.trace, luck);
          LostLater(writes, [refresh] + ran.trace, luck);
        }
      }
    }
  }

  /** The tiers given for agents that have none of them. */
  predicate WrongTiers(agents: seq<Agent>, answers: Answers) {
    && answers.agents.Some? && answers.tiers.Some?
    && var chosen := ChosenAgents(agents, answers.agents.value);
    chosen.Go? && chosen.value != [] && !TiersKnown(chosen.value, answers.tiers.value)
  }

  lemma NoMoveAlone(d: Decision, refused: set<Effect>)
    requires d.moveTo.None? && forall e :: e in refused ==> !e.Create? && !e.AddKey?
    ensures forall e :: e in Writes(d) ==> e !in refused
  {
  }

  lemma SelectsUnlessWrong(state: State, models: seq<string>, answers: Answers)
    requires AgentsComplete(state.agents, answers)
    ensures Select(state, models, answers, None) == Halt(Usage) <==> WrongTiers(state.agents, answers)
    ensures Select(state, models, answers, None).Halt? ==> Select(state, models, answers, None) == Halt(Usage)
  {
    hide TiersKnown;
    CheckedIs(state, answers, Luck({}, {}, {}, true, true, true, Listed, Listed, []));
    if answers.agents.Some? && answers.agents.value.Ids? {
      ByIdsIs(state.agents, answers.agents.value.ids);
    }
  }

  lemma PlanAndWireNeverUsage(state: State, result: Result, selection: Selection, answers: Answers, luck: Luck)
    ensures PlanAndWire(state, result, selection, answers, None, luck).outcome != Usage
  {
    hide Planning, Previews, WireAll;
  }

  /** The one mistake in the options that is found only after the provider was written: the tiers. */
  lemma TiersFailLate(state: State, answers: Answers, luck: Luck)
    requires luck.presets && luck.providers && luck.rereads && luck.listsFirst.Listed? && luck.lists.Listed?
    requires Complete(state, answers) && (forall e :: e in luck.lost ==> !e.Refresh?)
    requires forall e :: e in Failing(luck) ==> !e.Create? && !e.AddKey?
    ensures var ran := Run(state, answers, None, luck);
            && (ran.outcome == Usage <==> WrongTiers(state.agents, answers))
            && (ran.outcome == Usage ==>
                PresetById(state.presets, answers.preset.value).value.id in ran.state.providers)
  {
    hide Decide, Writes, Ready, ModelsOf, ProviderComplete, AgentsComplete, PresetById, PlanAndWire, ChosenAgents,
        TiersKnown;
    DecidesExactly(state, answers, luck);
    var d := Decide(state, answers, None, luck).value;
    NoMoveAlone(d, Failing(luck));
    RunFromReady(state, answers, luck);
    var next := Ready(state, answers, luck);
    var models := ModelsOf(next, d.preset.id);
    SelectsUnlessWrong(next, models, answers);
    var selected := Select(next, models, answers, None);
    if selected.Go? && selected.value.agents != [] {
      PlanAndWireNeverUsage(next, ResultOf(d, |models|, Refresh(d.preset.id, luck.models) in luck.refused),
          selected.value, answers, luck);
    }
  }

  lemma OnlyPreset(preset: Preset)
    ensures PresetById([preset], preset.id) == Some(preset)
  {
  }

  lemma OnlyAgent(agent: Agent)
    requires agent.installed
    ensures AgentById([agent], agent.id) == Some(agent) && ByIds([agent], [agent.id]) == Go([agent])
  {
    var ids, none := [agent.id], ByIds([agent], []);
    assert ids[1..] == [] && none == Go([]);
    assert ByIds([agent], ids[1..]) == none && [agent] + [] == [agent];
  }

  /** A wrong tier, everything else in order: the provider was not there, and is when the run fails. */
  lemma TierFoundTooLate() returns (state: State, answers: Answers, luck: Luck)
    ensures Complete(state, answers) && WrongTiers(state.agents, answers) && state.providers == map[]
    ensures var ran := Run(state, answers, None, luck); ran.outcome == Usage && ran.state.providers != map[]
  {
    var preset := Preset("p", None, None, map[], false, false, false, true, []);
    var agent := Agent("a", true, {});
    state := State([preset], [agent], map[], map[]);
    answers := Answers(Some("p"), None, None, None, None, Some(Ids(["a"])), Some("p/m"), Some(map["opus" := "p/m"]),
        true);
    luck := Luck({}, {}, {}, true, true, true, Listed, Listed, []);
    hide Run, Rebased, Chosen, PresetById, AgentById, ByIds, Installed;
    OnlyPreset(preset);
    OnlyAgent(agent);
    assert "opus" in answers.tiers.value;
    TiersFailLate(state, answers, luck);
  }

  // ---------- No call is made twice ----------

  function Rank(e: Effect): nat {
    match e
    case Create(_, _, _, _, _) => 0
    case Move(_, _) => 1
    case AddKey(_, _) => 2
    case Refresh(_, _) => 3
    case Preview(_, _, _) => 4
    case Show(_) => 5
    case Confirm(_) => 6
    case Wire(_, _, _, _) => 7
  }

  function PlaceOf(e: Effect): nat {
    if e.Preview? || e.Wire? then e.place else 0
  }

  /** By the step of the run, and then by the agent's place. */
  predicate Ordered(trace: seq<Effect>) {
    forall i, j :: 0 <= i < j < |trace| ==>
      Rank(trace[i]) < Rank(trace[j]) || (Rank(trace[i]) == Rank(trace[j]) && PlaceOf(trace[i]) < PlaceOf(trace[j]))
  }

  predicate Ranked(trace: seq<Effect>, low: nat, high: nat) {
    forall e :: e in trace ==> low <= Rank(e) < high
  }

  lemma OrderedJoins(a: seq<Effect>, b: seq<Effect>, low: nat, middle: nat, high: nat)
    requires Ordered(a) && Ordered(b) && Ranked(a, low, middle) && Ranked(b, middle, high) && low <= middle <= high
    ensures Ordered(a + b) && Ranked(a + b, low, high)
  {
    hide Rank, PlaceOf;
    var ab := a + b;
    forall i, j | 0 <= i < |a| <= j < |ab| ensures Rank(ab[i]) < Rank(ab[j]) {
      assert ab[i] in a && ab[j] in b;
    }
  }

  lemma OrderedUpTo(trace: seq<Effect>, n: nat)
    requires n <= |trace| && Ordered(trace)
    ensures Ordered(trace[..n])
  {
    hide Rank, PlaceOf;
  }

  lemma OneMoreInOrder(trace: seq<Effect>, e: Effect)
    requires Ordered(trace) && forall d :: d in trace ==> Rank(d) == Rank(e) && PlaceOf(d) < PlaceOf(e)
    ensures Ordered(trace + [e])
  {
    hide Rank, PlaceOf;
    var all := trace + [e];
    forall i | 0 <= i < |trace| ensures Rank(all[i]) == Rank(e) && PlaceOf(all[i]) < PlaceOf(e) {
      assert all[i] in trace;
    }
  }

  predicate InPlaces(planned: seq<Planned>) {
    forall k :: 0 <= k < |planned| ==> planned[k].place == k
  }

  lemma {:induction false} PreviewsInOrder(planned: seq<Planned>)
    requires InPlaces(planned)
    ensures Ordered(Previews(planned))
    ensures forall e :: e in Previews(planned) ==> Rank(e) == 4 && PlaceOf(e) < |planned|
  {
    if planned != [] {
      var front, last := planned[..|planned| - 1], planned[|planned| - 1];
      PreviewsInOrder(front);
      if last.plan.Some? {
        OneMoreInOrder(Previews(front), CallsOf(last)[0]);
      }
    }
  }

  lemma NothingInOrder()
    ensures Ordered([])
  {
  }

  lemma {:induction false} WiresInOrder(state: State, planned: seq<Planned>, luck: Luck)
    requires InPlaces(planned)
    ensures Ordered(WireAll(state, planned, luck).trace)
    ensures forall e :: e in WireAll(state, planned, luck).trace ==> Rank(e) == 7 && PlaceOf(e) < |planned|
  {
    hide StateAfter, ReplyTo, Ordered;
    if planned != [] {
      var front, last := planned[..|planned| - 1], planned[|planned| - 1];
      WiresInOrder(state, front, luck);
      if last.Changes() {
        OneMoreInOrder(WireAll(state, front, luck).trace, WireOf(last));
      }
    } else {
      NothingInOrder();
    }
  }

  lemma OneInOrder(e: Effect)
    ensures Ordered([e]) && Ranked([e], Rank(e), Rank(e) + 1)
  {
  }

  lemma ShownInOrder(planned: seq<Planned>, asks: seq<Effect>)
    requires |asks| <= 1 && forall e :: e in asks ==> e.Confirm?
    ensures Ordered([Show(planned)] + asks) && Ranked([Show(planned)] + asks, 5, 7)
  {
    if asks != [] {
      assert asks[0] in asks;
    }
  }

  lemma PlanAndWireInOrder(state: State, result: Result, selection: Selection, answers: Answers,
                           person: Option<Person>, luck: Luck)
    ensures var trace := PlanAndWire(state, result, selection, answers, person, luck).trace;
            Ordered(trace) && Ranked(trace, 4, 8)
  {
    hide Planning, Previews, WireAll, Changing, Yes, Ordered, FirstFailing, Rank, PlaceOf;
    var planned := Planning(state, selection);
    var calls, asks := Previews(planned), Asks(planned, answers, person);
    var wires := if MayWire(planned, answers, person) then WireAll(state, planned, luck).trace else [];
    PlanningIs(state, selection);
    PreviewsInOrder(planned);
    WiresInOrder(state, planned, luck);
    NothingInOrder();
    ShownInOrder(planned, asks);
    OrderedJoins(calls, [Show(planned)] + asks, 4, 5, 7);
    OrderedJoins(calls + ([Show(planned)] + asks), wires, 4, 7, 8);
    assert calls + ([Show(planned)] + asks) == calls + [Show(planned)] + asks;
    assert calls + [Show(planned)] + asks + [] == calls + [Show(planned)] + asks;
    var n := FirstFailing(calls, Failing(luck));
    if n < |calls| {
      OrderedUpTo(calls, n + 1);
      assert forall e :: e in calls[..n + 1] ==> e in calls;
    }
  }

  lemma WritesInOrder(d: Decision)
    ensures Ordered(Writes(d)) && Ranked(Writes(d), 0, 3)
  {
  }

  lemma RefreshInOrder(refresh: Effect)
    requires refresh.Refresh?
    ensures Ordered([refresh]) && Ranked([refresh], 3, 4)
  {
    OneInOrder(refresh);
  }

  lemma WireAgentsInOrder(state: State, result: Result, models: seq<string>, answers: Answers,
                          person: Option<Person>, luck: Luck)
    ensures var trace := WireAgents(state, result, models, answers, person, luck).trace;
            Ordered(trace) && Ranked(trace, 4, 8)
  {
    hide Select, PlanAndWire, Ordered, Rank;
    NothingInOrder();
    var selected := Select(state, models, answers, person);
    if selected.Go? {
      PlanAndWireInOrder(state, result, selected.value, answers, person, luck);
    }
  }

  lemma RunInOrder(state: State, answers: Answers, person: Option<Person>, luck: Luck)
    ensures Ordered(Run(state, answers, person, luck).trace)
  {
    hide Decide, Writes, WireAgents, FirstFailing, ApplyAll, StateAfter, Ordered, Rank;
    NothingInOrder();
    var decided := Decide(state, answers, person, luck);
    if decided.Go? {
      var d := decided.value;
      var writes, refresh := Writes(d), Refresh(d.preset.id, luck.models);
      var n := FirstFailing(writes, Failing(luck));
      WritesInOrder(d);
      RefreshInOrder(refresh);
      if n < |writes| {
        OrderedUpTo(writes, n + 1);
      } else {
        var next := StateAfter(ApplyAll(state, writes), refresh, luck);
        OrderedJoins(writes, [refresh], 0, 3, 4);
        if !EndsAtRefresh(refresh, luck) {
          var models := ModelsOf(next, d.preset.id);
          var result := ResultOf(d, |models|, refresh in luck.refused);
          var ran := WireAgents(next, result, models, answers, person, luck);
          WireAgentsInOrder(next, result, models, answers, person, luck);
          OrderedJoins(writes + [refresh], ran.trace, 0, 4, 8);
          assert writes + ([refresh] + ran.trace) == writes + [refresh] + ran.trace;
        }
      }
    }
  }

  /** Over every run, also with an agent given twice: no call is made twice, so that which calls fail
      can be any of them. */
  lemma NoCallIsMadeTwice(state: State, answers: Answers, person: Option<Person>, luck: Luck)
    ensures var trace := Run(state, answers, person, luck).trace;
            forall i, j :: 0 <= i < j < |trace| ==> trace[i] != trace[j]
  {
    RunInOrder(state, answers, person, luck);
    hide Run;
  }
}
