/** What a run of the first-run wizard wires: packages/cli/src/init.ts, `runInit`. */
module FirstRunContents {
  import opened Optional
  import opened FirstRun
  import opened FirstRunLaws
  import opened Seqs
  import opened Text

  // ---------- The model and the tiers that were answered ----------

  /** The preset's id, and so the provider's: answered, or picked by the person. */
  function ProviderId(answers: Answers, person: Option<Person>): string {
    if answers.preset.Some? then answers.preset.value else if person.Some? then person.value.preset else ""
  }

  /** The answered model, or else the person's pick among the provider's. */
  predicate ModelIs(model: string, models: seq<string>, answers: Answers, person: Option<Person>) {
    if answers.model.Some? then model == answers.model.value
    else person.Some? && model == person.value.model && model in models
  }

  /** The answered tiers, or else the person's when a chosen agent has any, or else none. */
  predicate Gives(given: map<string, string>, chosen: seq<Agent>, answers: Answers, person: Option<Person>) {
    if answers.tiers.Some? then given == answers.tiers.value
    else if person.Some? && exists agent :: agent in chosen && agent.tiers != {} then given == person.value.tiers
    else given == map[]
  }

  /** Exactly the given tiers that the agent has; none when there are none. */
  ghost predicate TakesItsTiers(tiers: Option<map<string, string>>, given: map<string, string>, agent: Agent) {
    && (tiers.None? <==> forall tier :: tier in given ==> tier !in agent.tiers)
    && (tiers.Some? ==> forall tier :: tier in tiers.value <==> tier in given && tier in agent.tiers)
    && (tiers.Some? ==> forall tier :: tier in tiers.value ==> tiers.value[tier] == given[tier])
  }

  ghost predicate IsAnswered(input: Input, agent: Agent, chosen: seq<Agent>, models: seq<string>, answers: Answers,
                             person: Option<Person>)
  {
    && ModelIs(input.model, models, answers, person)
    && exists given :: Gives(given, chosen, answers, person) && TakesItsTiers(input.tiers, given, agent)
  }

  /** Previews, what is shown and wirings are for the chosen agents, each at its place, and carry what
      was answered. */
  ghost predicate Carries(e: Effect, chosen: seq<Agent>, models: seq<string>, answers: Answers,
      person: Option<Person>) {
    match e
    case Preview(place, agent, input) =>
      place < |chosen| && agent == chosen[place].id
          && IsAnswered(input, chosen[place], chosen, models, answers, person)
    case Wire(place, agent, input, _) =>
      place < |chosen| && agent == chosen[place].id
          && IsAnswered(input, chosen[place], chosen, models, answers, person)
    case Show(planned) =>
      |planned| == |chosen| && forall k :: 0 <= k < |chosen| ==>
        planned[k].place == k && planned[k].agent == chosen[k]
            && IsAnswered(planned[k].input, chosen[k], chosen, models, answers, person)
    case _ => true
  }

  /** The entries are for the chosen agents, in order, and carry what was answered. */
  ghost predicate ReportsAnswered(entries: seq<Entry>, chosen: seq<Agent>, models: seq<string>, answers: Answers,
                                  person: Option<Person>)
  {
    |entries| == |chosen| && forall k :: 0 <= k < |chosen| ==>
      entries[k].agent == chosen[k].id && IsAnswered(entries[k].input, chosen[k], chosen, models, answers, person)
  }

  lemma InputCarriesTiers(agent: Agent, selection: Selection)
    ensures InputOf(agent, selection).model == selection.model
    ensures TakesItsTiers(InputOf(agent, selection).tiers, selection.tiers, agent)
  {
    var own := map tier | tier in selection.tiers && tier in agent.tiers :: selection.tiers[tier];
    assert own == map[] <==> forall tier :: tier in selection.tiers ==> tier !in agent.tiers by {
      if own == map[] {
        forall tier | tier in selection.tiers ensures tier !in agent.tiers {
          assert tier !in own;
        }
      } else {
        var tier :| tier in own;
      }
    }
  }

  lemma SelectedIs(state: State, models: seq<string>, answers: Answers, person: Option<Person>)
    requires Select(state, models, answers, person).Go?
    ensures var selection := Select(state, models, answers, person).value;
            && AgentsOf(state, answers, person) == Go(selection.agents)
            && (selection.agents != [] ==>
                  && ModelIs(selection.model, models, answers, person)
                  && Gives(selection.tiers, selection.agents, answers, person))
  {
    hide AgentsOf, TiersKnown;
  }

  lemma InputIsAnswered(agent: Agent, selection: Selection, models: seq<string>, answers: Answers,
      person: Option<Person>)
    requires ModelIs(selection.model, models, answers, person)
    requires Gives(selection.tiers, selection.agents, answers, person)
    ensures IsAnswered(InputOf(agent, selection), agent, selection.agents, models, answers, person)
  {
    hide InputOf, ModelIs, Gives, TakesItsTiers;
    InputCarriesTiers(agent, selection);
  }

  lemma PlannedIsAnswered(state: State, selection: Selection, models: seq<string>, answers: Answers,
                          person: Option<Person>)
    requires ModelIs(selection.model, models, answers, person)
    requires Gives(selection.tiers, selection.agents, answers, person)
    ensures Carries(Show(Planning(state, selection)), selection.agents, models, answers, person)
  {
    hide InputOf, PlannedFor, Planning, IsAnswered, ModelIs, Gives;
    PlanningIs(state, selection);
    forall k | 0 <= k < |selection.agents|
      ensures IsAnswered(Planning(state, selection)[k].input, selection.agents[k], selection.agents, models, answers,
                         person)
    {
      InputIsAnswered(selection.agents[k], selection, models, answers, person);
    }
  }

  lemma {:induction false} PreviewsOffer(planned: seq<Planned>)
    ensures forall e :: e in Previews(planned) ==>
              exists p :: p in planned && e == Preview(p.place, p.agent.id, p.input)
  {
    if planned != [] {
      var front, last := planned[..|planned| - 1], planned[|planned| - 1];
      PreviewsOffer(front);
      assert last in planned && forall p :: p in front ==> p in planned;
    }
  }

  lemma OfferedCarries(planned: seq<Planned>, p: Planned, confirmed: Plan, chosen: seq<Agent>, models: seq<string>,
                       answers: Answers, person: Option<Person>)
    requires Carries(Show(planned), chosen, models, answers, person) && p in planned
    ensures Carries(Preview(p.place, p.agent.id, p.input), chosen, models, answers, person)
    ensures Carries(Wire(p.place, p.agent.id, p.input, confirmed), chosen, models, answers, person)
  {
    hide IsAnswered;
    var k :| 0 <= k < |planned| && planned[k] == p;
  }

  lemma AsksCarry(planned: seq<Planned>, chosen: seq<Agent>, models: seq<string>, answers: Answers,
                  person: Option<Person>)
    ensures forall e :: e in Asks(planned, answers, person) ==> Carries(e, chosen, models, answers, person)
  {
  }

  lemma EntriesCarry(entries: seq<Entry>, planned: seq<Planned>, chosen: seq<Agent>, models: seq<string>,
                     answers: Answers, person: Option<Person>)
    requires Carries(Show(planned), chosen, models, answers, person) && |entries| == |planned|
    requires forall k :: 0 <= k < |entries| ==>
               entries[k].agent == planned[k].agent.id && entries[k].input == planned[k].input
    ensures ReportsAnswered(entries, chosen, models, answers, person)
  {
    hide IsAnswered;
  }

  lemma PlanAndWireCarries(state: State, result: Result, selection: Selection, models: seq<string>, answers: Answers,
                           person: Option<Person>, luck: Luck)
    requires ModelIs(selection.model, models, answers, person)
    requires Gives(selection.tiers, selection.agents, answers, person)
    ensures var ran := PlanAndWire(state, result, selection, answers, person, luck);
            && (forall e :: e in ran.trace ==> Carries(e, selection.agents, models, answers, person))
            && (ran.outcome.Done? ==>
                  ReportsAnswered(ran.outcome.result.agents, selection.agents, models, answers, person))
            && ran.state.providers == state.providers && ran.state.agents == state.agents
  {
    hide Planning, Previews, WireAll, Carries, MayWire, FirstFailing, ModelIs, Gives, ReportsAnswered;
    var planned := Planning(state, selection);
    PlannedIsAnswered(state, selection, models, answers, person);
    PreviewsOffer(planned);
    WireTrace(state, planned, luck);
    EntriesFollow(state, planned, luck);
    forall e | e in Previews(planned) ensures Carries(e, selection.agents, models, answers, person) {
      var p :| p in planned && e == Preview(p.place, p.agent.id, p.input);
      OfferedCarries(planned, p, PlanOf(state, "", p.input), selection.agents, models, answers, person);
    }
    forall e | e in WireAll(state, planned, luck).trace ensures Carries(e, selection.agents, models, answers, person) {
      var p :| p in planned && p.Changes() && e == Wire(p.place, p.agent.id, p.input, p.plan.value);
      OfferedCarries(planned, p, p.plan.value, selection.agents, models, answers, person);
    }
    AsksCarry(planned, selection.agents, models, answers, person);
    if !WireAll(state, planned, luck).threw {
      EntriesCarry(WireAll(state, planned, luck).entries, planned, selection.agents, models, answers, person);
    }
  }

  lemma WireAgentsCarries(state: State, result: Result, models: seq<string>, answers: Answers, person: Option<Person>,
                          luck: Luck)
    requires result.agents == []
    ensures var ran := WireAgents(state, result, models, answers, person, luck);
            var chosen := AgentsOf(state, answers, person);
            && (forall e :: e in ran.trace ==> chosen.Go? && Carries(e, chosen.value, models, answers, person))
            && (ran.outcome.Done? && luck.lists.Listed? ==>
                  chosen.Go? && ReportsAnswered(ran.outcome.result.agents, chosen.value, models, answers, person))
            && ran.state.providers == state.providers && ran.state.agents == state.agents
  {
    hide Select, PlanAndWire, AgentsOf, Carries, ModelIs, Gives, IsAnswered;
    var selected := Select(state, models, answers, person);
    if selected.Go? {
      SelectedIs(state, models, answers, person);
      if selected.value.agents != [] {
        PlanAndWireCarries(state, result, selected.value, models, answers, person, luck);
      }
    }
  }

  lemma PresetIs(state: State, answers: Answers, person: Option<Person>)
    requires PresetOf(state, answers, person).Go?
    ensures var preset := PresetOf(state, answers, person).value;
            preset in state.presets && preset.id == ProviderId(answers, person)
  {
    FindIs(state.presets, (p: Preset) => p.id == ProviderId(answers, person));
  }

  lemma DecidedPreset(state: State, answers: Answers, person: Option<Person>, luck: Luck)
    requires Decide(state, answers, person, luck).Go?
    ensures Decide(state, answers, person, luck).value.preset.id == ProviderId(answers, person)
    ensures PresetOf(state, answers, person) == Go(Decide(state, answers, person, luck).value.preset)
  {
    hide PresetOf, ProviderId, Asked, Known, Chosen, BaseOf, MoveOf, Checked, KeyOf, EndpointsOf;
    PresetIs(state, answers, person);
  }

  /** What a run came to before the agents: the effects so far, the state it left, and whether it goes on. */
  datatype Provided = Provided(trace: seq<Effect>, state: State, goesOn: bool)

  /** The writes and the refresh of a run. */
  function ProvidedBy(state: State, d: Decision, luck: Luck): Provided {
    var writes, refresh := Writes(d), Refresh(d.preset.id, luck.models);
    var n := FirstFailing(writes, Failing(luck));
    if n < |writes| then
      Provided(writes[..n + 1], StateAfter(ApplyAll(state, writes[..n]), writes[n], luck), false)
    else
      Provided(writes + [refresh], StateAfter(ApplyAll(state, writes), refresh, luck), !EndsAtRefresh(refresh, luck))
  }

  lemma ProvidedKeeps(state: State, d: Decision, luck: Luck)
    ensures var provided := ProvidedBy(state, d, luck);
            && SameCatalog(provided.state, state) && provided.state.wirings == state.wirings
            && forall e :: e in provided.trace ==> e in Writes(d) || e == Refresh(d.preset.id, luck.models)
  {
    hide Writes, ApplyAll, StateAfter, FirstFailing;
    var writes, refresh := Writes(d), Refresh(d.preset.id, luck.models);
    var n := FirstFailing(writes, Failing(luck));
    WritesAreNoWires(d);
    if n < |writes| {
      FirstAreNoWires(writes, n);
      ApplyAllKeeps(state, writes[..n]);
      assert writes[n] in writes;
      CallKeepsWirings(ApplyAll(state, writes[..n]), writes[n], luck);
    } else {
      ApplyAllKeeps(state, writes);
      CallKeepsWirings(ApplyAll(state, writes), refresh, luck);
    }
  }

  /** A run from the agents on. */
  function Rest(next: State, d: Decision, answers: Answers, person: Option<Person>, luck: Luck): Ran {
    var models := ModelsOf(next, d.preset.id);
    WireAgents(next, ResultOf(d, |models|, Refresh(d.preset.id, luck.models) in luck.refused), models, answers, person,
               luck)
  }

  lemma RunIs(state: State, answers: Answers, person: Option<Person>, luck: Luck)
    ensures var ran := Run(state, answers, person, luck);
            match Decide(state, answers, person, luck)
            case Halt(outcome) => ran == Ran(outcome, state, [])
            case Go(d) =>
              var provided := ProvidedBy(state, d, luck);
              var rest := Rest(provided.state, d, answers, person, luck);
              ran == if provided.goesOn then Ran(rest.outcome, rest.state, provided.trace + rest.trace)
                     else Ran(Threw, provided.state, provided.trace)
  {
    hide Decide, Writes, WireAgents, FirstFailing, ApplyAll, StateAfter, ResultOf;
    var decided := Decide(state, answers, person, luck);
    if decided.Go? {
      var d := decided.value;
      var writes, refresh := Writes(d), Refresh(d.preset.id, luck.models);
      if FirstFailing(writes, Failing(luck)) == |writes| {
        var rest := Rest(StateAfter(ApplyAll(state, writes), refresh, luck), d, answers, person, luck);
        assert writes + ([refresh] + rest.trace) == writes + [refresh] + rest.trace;
      }
    }
  }

  /** Over every run: every preview, what is shown, every wiring and every entry is for a chosen agent
      at its place, with the answered model, or else the person's pick among the provider's models,
      and exactly the given tiers that this agent has. */
  lemma AnswersReachTheAgents(state: State, answers: Answers, person: Option<Person>, luck: Luck)
    ensures var ran := Run(state, answers, person, luck);
            var chosen := AgentsOf(state, answers, person);
            var models := ModelsOf(ran.state, ProviderId(answers, person));
            && (forall e :: e in ran.trace && (e.Preview? || e.Show? || e.Wire?) ==>
                  chosen.Go? && Carries(e, chosen.value, models, answers, person))
            && (ran.outcome.Done? && luck.lists.Listed? ==>
                  chosen.Go? && ReportsAnswered(ran.outcome.result.agents, chosen.value, models, answers, person))
  {
    hide Run, Decide, Writes, WireAgents, AgentsOf, ProvidedBy, ProviderId, Carries, ReportsAnswered;
    RunIs(state, answers, person, luck);
    var decided := Decide(state, answers, person, luck);
    if decided.Go? {
      var d := decided.value;
      ProvidedKeeps(state, d, luck);
      WritesAreNoWires(d);
      DecidedPreset(state, answers, person, luck);
      var provided := ProvidedBy(state, d, luck);
      if provided.goesOn {
        var models := ModelsOf(provided.state, d.preset.id);
        var result := ResultOf(d, |models|, Refresh(d.preset.id, luck.models) in luck.refused);
        SameAgentsOf(state, provided.state, answers, person);
        WireAgentsCarries(provided.state, result, models, answers, person, luck);
      }
    }
  }

  // ---------- What the wirings are afterwards ----------

  /** Wired as asked: this model, a working key, no drift, and the given tiers, or else those it had. */
  predicate WiredTo(wiring: Option<Wiring>, input: Input, before: Option<Wiring>) {
    && wiring.Some? && wiring.value.model == Some(input.model)
    && wiring.value.key == Active && !wiring.value.drifted && !wiring.value.driftError
    && (input.tiers.Some? ==> wiring.value.tiers == input.tiers.value)
    && (input.tiers.None? ==> wiring.value.tiers == if before.Some? then before.value.tiers else map[])
  }

  /** Nothing is to be written: the model is this one, nothing drifted, and the tiers are the given ones
      with a working key. A key of its own does as well, but then tiers that were not given are to be gone. */
  predicate AlreadyWired(wiring: Option<Wiring>, input: Input) {
    && wiring.Some? && wiring.value.model == Some(input.model) && !wiring.value.drifted && !wiring.value.driftError
    && (input.tiers.Some? ==> wiring.value.tiers == input.tiers.value)
    && (wiring.value.key == Active
        || (wiring.value.key == Keyless && (input.tiers.None? ==> wiring.value.tiers == map[])))
  }

  lemma UnchangedExactly(state: State, place: nat, agent: Agent, input: Input)
    ensures !PlannedFor(state, place, agent, input).Changes() <==> AlreadyWired(WiringOf(state, agent.id), input)
  {
  }

  lemma RewiredIs(before: Option<Wiring>, input: Input)
    ensures WiredTo(Some(Rewired(before, input)), input, before)
  {
  }

  predicate WiredIn(entries: seq<Entry>, agent: string) {
    exists entry :: entry in entries && entry.agent == agent && entry.report == Wired
  }

  /** What the entries say is so: `unchanged` exactly for an agent that was wired this way, `wired` for
      one that now is, and an agent with no such entry is wired as before. */
  ghost predicate EntriesHold(entries: seq<Entry>, before: State, after: State) {
    && (forall k :: 0 <= k < |entries| ==>
          (entries[k].report == Unchanged <==> AlreadyWired(WiringOf(before, entries[k].agent), entries[k].input)))
    && (forall k :: 0 <= k < |entries| && entries[k].report == Wired ==>
          WiredTo(WiringOf(after, entries[k].agent), entries[k].input, WiringOf(before, entries[k].agent)))
    && (forall agent :: !WiredIn(entries, agent) ==> WiringOf(after, agent) == WiringOf(before, agent))
  }

  /** An agent is wired exactly when its call, which is then in the trace, was not refused, and no earlier
      entry wired it. */
  ghost predicate ReportsHold(entries: seq<Entry>, planned: seq<Planned>, trace: seq<Effect>, luck: Luck) {
    |entries| == |planned| && forall k :: 0 <= k < |planned| && planned[k].Changes() ==>
      && WireOf(planned[k]) in trace
      && (entries[k].report == Wired <==>
            WireOf(planned[k]) !in luck.refused && !WiredIn(entries[..k], planned[k].agent.id))
  }

  /** Also: an agent that was wired is not wired as before. */
  ghost predicate WiresHold(state: State, planned: seq<Planned>, luck: Luck, wired: Wirings) {
    && EntriesHold(wired.entries, state, wired.state) && ReportsHold(wired.entries, planned, wired.trace, luck)
    && (forall agent :: WiredIn(wired.entries, agent) ==> WiringOf(wired.state, agent) != WiringOf(state, agent))
  }

  lemma WiredInLonger(entries: seq<Entry>, entry: Entry, agent: string)
    ensures WiredIn(entries + [entry], agent) <==>
              WiredIn(entries, agent) || (entry.agent == agent && entry.report == Wired)
  {
  }

  lemma OneCall(state: State, done: Wirings, p: Planned, luck: Luck)
    requires p == PlannedFor(state, p.place, p.agent, p.input) && !WireOne(done, p, luck).threw
    requires WiringOf(done.state, p.agent.id) == WiringOf(state, p.agent.id) <==> !WiredIn(done.entries, p.agent.id)
    ensures var next := WireOne(done, p, luck);
            var report := if !p.Changes() then Unchanged
                          else if WireOf(p) !in luck.refused
                              && !WiredIn(done.entries, p.agent.id) then Wired else Failed;
            && !done.threw && next.entries == done.entries + [Entry(p.agent.id, p.input, report)]
            && next.trace == done.trace + (if p.Changes() then [WireOf(p)] else [])
            && (report == Wired ==>
                  && WiredTo(WiringOf(next.state, p.agent.id), p.input, WiringOf(state, p.agent.id))
                  && WiringOf(next.state, p.agent.id) != WiringOf(state, p.agent.id))
            && (forall agent :: agent != p.agent.id || report != Wired ==>
                  WiringOf(next.state, agent) == WiringOf(done.state, agent))
  {
    hide SameWiring, Rewired, WiredIn, WiredTo;
    RewiredIs(WiringOf(state, p.agent.id), p.input);
  }

  lemma EntriesHoldLonger(before: State, held: State, entries: seq<Entry>, entry: Entry, after: State)
    requires EntriesHold(entries, before, held)
    requires entry.report == Unchanged <==> AlreadyWired(WiringOf(before, entry.agent), entry.input)
    requires if entry.report == Wired then
               && !WiredIn(entries, entry.agent)
               && WiredTo(WiringOf(after, entry.agent), entry.input, WiringOf(before, entry.agent))
             else WiringOf(after, entry.agent) == WiringOf(held, entry.agent)
    requires forall agent :: agent != entry.agent ==> WiringOf(after, agent) == WiringOf(held, agent)
    ensures EntriesHold(entries + [entry], before, after)
  {
    hide WiredTo, AlreadyWired, WiringOf;
    var longer := entries + [entry];
    forall k | 0 <= k < |entries| && entries[k].report == Wired
      ensures WiringOf(after, entries[k].agent) == WiringOf(held, entries[k].agent)
    {
      assert entries[k] in entries && WiredIn(entries, entries[k].agent);
    }
    forall agent | !WiredIn(longer, agent) ensures WiringOf(after, agent) == WiringOf(before, agent) {
      WiredInLonger(entries, entry, agent);
    }
  }

  lemma OthersAsBefore(entries: seq<Entry>, before: State, after: State, agent: string)
    requires EntriesHold(entries, before, after)
    ensures !WiredIn(entries, agent) ==> WiringOf(after, agent) == WiringOf(before, agent)
  {
    hide WiringOf;
  }

  lemma OneEntryHolds(state: State, planned: seq<Planned>, p: Planned, luck: Luck, done: Wirings)
    requires p == PlannedFor(state, p.place, p.agent, p.input) && !WireOne(done, p, luck).threw
    requires WiresHold(state, planned, luck, done)
    ensures WiresHold(state, planned + [p], luck, WireOne(done, p, luck))
  {
    hide WireOne, WiredIn, WiredTo, AlreadyWired, PlannedFor, WiringOf, Planned.Changes, EntriesHold, WireOf;
    OthersAsBefore(done.entries, state, done.state, p.agent.id);
    OneCall(state, done, p, luck);
    UnchangedExactly(state, p.place, p.agent, p.input);
    var next := WireOne(done, p, luck);
    var entry := next.entries[|done.entries|];
    EntriesHoldLonger(state, done.state, done.entries, entry, next.state);
    forall agent ensures WiredIn(next.entries, agent) <==>
        WiredIn(done.entries, agent) || (entry.agent == agent && entry.report == Wired)
    {
      WiredInLonger(done.entries, entry, agent);
    }
    assert forall k :: 0 <= k <= |planned| ==> next.entries[..k] == done.entries[..k];
    assert done.entries[..|planned|] == done.entries;
  }

  lemma NothingWiredYet(state: State, luck: Luck)
    ensures WiresHold(state, [], luck, WireAll(state, [], luck))
  {
    hide WiredTo, AlreadyWired;
  }

  lemma {:induction false} WiringHolds(state: State, planned: seq<Planned>, luck: Luck)
    requires forall p :: p in planned ==> p == PlannedFor(state, p.place, p.agent, p.input)
    requires !WireAll(state, planned, luck).threw
    ensures WiresHold(state, planned, luck, WireAll(state, planned, luck))
  {
    hide WireAll, WiresHold, PlannedFor;
    if planned == [] {
      NothingWiredYet(state, luck);
    } else {
      var front, last := planned[..|planned| - 1], planned[|planned| - 1];
      assert last in planned && (forall p :: p in front ==> p in planned) && front + [last] == planned;
      WireAllStep(state, front, last, luck);
      WiringHolds(state, front, luck);
      OneEntryHolds(state, front, last, luck, WireAll(state, front, luck));
    }
  }

  /** What was shown is what the previews answered: each is in the trace, and leads from the wiring that
      the agent has to the one that was asked for. */
  ghost predicate PlansHold(planned: seq<Planned>, before: State, trace: seq<Effect>) {
    forall k :: 0 <= k < |planned| ==>
      var p := planned[k]; var here := WiringOf(before, p.agent.id);
      && (p.plan.Some? <==> Preview(p.place, p.agent.id, p.input) in trace)
      && (p.plan.Some? ==> p.plan.value.before == here && WiredTo(Some(p.plan.value.after), p.input, here))
      && (p.plan.None? ==> AlreadyWired(here, p.input))
  }

  lemma {:induction false} PreviewsOfPlans(planned: seq<Planned>)
    requires InPlaces(planned)
    ensures forall k :: 0 <= k < |planned| ==>
              (planned[k].plan.Some? <==>
                Preview(planned[k].place, planned[k].agent.id, planned[k].input) in Previews(planned))
    ensures forall e :: e in Previews(planned) ==> e.Preview? && e.place < |planned|
  {
    if planned != [] {
      PreviewsOfPlans(planned[..|planned| - 1]);
    }
  }

  lemma PlanHolds(state: State, p: Planned)
    requires p == PlannedFor(state, p.place, p.agent, p.input)
    ensures p.plan.Some? ==> p.plan.value.before == WiringOf(state, p.agent.id)
                             && WiredTo(Some(p.plan.value.after), p.input, WiringOf(state, p.agent.id))
    ensures p.plan.None? ==> AlreadyWired(WiringOf(state, p.agent.id), p.input)
  {
  }

  /** The outcome of a run that shows its agents. */
  ghost predicate HoldsAfter(before: State, ran: Ran, luck: Luck)
    requires ran.outcome.Done?
  {
    exists planned :: Show(planned) in ran.trace && PlansHold(planned, before, ran.trace)
        && ReportsHold(ran.outcome.result.agents, planned, ran.trace, luck)
  }

  lemma PlansHoldIn(planned: seq<Planned>, state: State, trace: seq<Effect>)
    requires InPlaces(planned) && forall p :: p in planned ==> p == PlannedFor(state, p.place, p.agent, p.input)
    requires forall e: Effect :: e.Preview? ==> (e in trace <==> e in Previews(planned))
    ensures PlansHold(planned, state, trace)
  {
    hide PlannedFor, Previews, WiredTo, AlreadyWired, WiringOf;
    PreviewsOfPlans(planned);
    forall k | 0 <= k < |planned|
      ensures planned[k].plan.Some? ==>
                planned[k].plan.value.before == WiringOf(state, planned[k].agent.id)
                && WiredTo(Some(planned[k].plan.value.after), planned[k].input, WiringOf(state, planned[k].agent.id))
      ensures planned[k].plan.None? ==> AlreadyWired(WiringOf(state, planned[k].agent.id), planned[k].input)
    {
      PlanHolds(state, planned[k]);
    }
  }

  lemma PlanAndWireHolds(state: State, result: Result, selection: Selection, answers: Answers, person: Option<Person>,
                         luck: Luck)
    requires PlanAndWire(state, result, selection, answers, person, luck).outcome.Done?
    ensures var ran := PlanAndWire(state, result, selection, answers, person, luck);
            EntriesHold(ran.outcome.result.agents, state, ran.state) && HoldsAfter(state, ran, luck)
  {
    hide Planning, Previews, WireAll, MayWire, FirstFailing, EntriesHold, PlansHold, PlannedFor, Offers, InputOf;
    var ran := PlanAndWire(state, result, selection, answers, person, luck);
    var planned := Planning(state, selection);
    PlanningIs(state, selection);
    WiringHolds(state, planned, luck);
    WireTrace(state, planned, luck);
    var wires := WireAll(state, planned, luck).trace;
    var shown := [Show(planned)] + Asks(planned, answers, person);
    assert ran.trace == Previews(planned) + shown + wires;
    assert Show(planned) in shown;
    PlansHoldIn(planned, state, ran.trace);
    assert ReportsHold(ran.outcome.result.agents, planned, ran.trace, luck);
  }

  lemma WireAgentsHolds(state: State, result: Result, models: seq<string>, answers: Answers, person: Option<Person>,
                        luck: Luck)
    requires WireAgents(state, result, models, answers, person, luck).outcome.Done? && result.agents == []
    ensures var ran := WireAgents(state, result, models, answers, person, luck);
            && EntriesHold(ran.outcome.result.agents, state, ran.state)
            && (ran.outcome.result.agents != [] ==> HoldsAfter(state, ran, luck))
  {
    hide Select, PlanAndWire, HoldsAfter;
    var selected := Select(state, models, answers, person);
    if luck.lists.Listed? && selected.Go? && selected.value.agents != [] {
      PlanAndWireHolds(state, result, selected.value, answers, person, luck);
    }
  }

  lemma HoldsWithFront(before: State, front: seq<Effect>, rest: Ran, luck: Luck)
    requires rest.outcome.Done? && HoldsAfter(before, rest, luck) && forall e :: e in front ==> !e.Preview?
    ensures HoldsAfter(before, Ran(rest.outcome, rest.state, front + rest.trace), luck)
  {
    hide WiredTo, AlreadyWired, WiringOf, Planned.Changes;
    var planned :| Show(planned) in rest.trace && PlansHold(planned, before, rest.trace)
        && ReportsHold(rest.outcome.result.agents, planned, rest.trace, luck);
    var trace := front + rest.trace;
    assert Show(planned) in trace && PlansHold(planned, before, trace);
    assert ReportsHold(rest.outcome.result.agents, planned, trace, luck);
  }

  lemma SameWiringsHold(entries: seq<Entry>, a: State, b: State, after: State)
    requires a.wirings == b.wirings
    ensures EntriesHold(entries, a, after) ==> EntriesHold(entries, b, after)
  {
    hide WiredTo, AlreadyWired, WiredIn;
    assert forall agent :: WiringOf(a, agent) == WiringOf(b, agent);
    hide WiringOf;
  }

  lemma SameStart(a: State, b: State, ran: Ran, luck: Luck)
    requires a.wirings == b.wirings && ran.outcome.Done? && HoldsAfter(a, ran, luck)
    ensures HoldsAfter(b, ran, luck)
  {
    hide WiredTo, AlreadyWired, ReportsHold;
    assert forall agent :: WiringOf(a, agent) == WiringOf(b, agent);
    hide WiringOf;
    var planned :| Show(planned) in ran.trace && PlansHold(planned, a, ran.trace)
        && ReportsHold(ran.outcome.result.agents, planned, ran.trace, luck);
    assert PlansHold(planned, b, ran.trace);
  }

  /** Over every run that is done: what its entries report is so of the daemon's wirings, and each entry
      is for a plan that was shown; one that changes something was sent, and wired unless it was refused
      or the agent had been wired just before. */
  lemma EntriesAreSo(state: State, answers: Answers, person: Option<Person>, luck: Luck)
    requires Run(state, answers, person, luck).outcome.Done?
    ensures var ran := Run(state, answers, person, luck);
            && EntriesHold(ran.outcome.result.agents, state, ran.state)
            && (ran.outcome.result.agents != [] ==> HoldsAfter(state, ran, luck))
  {
    hide Run, Decide, Writes, WireAgents, ProvidedBy, EntriesHold, HoldsAfter;
    RunIs(state, answers, person, luck);
    var d := Decide(state, answers, person, luck).value;
    ProvidedKeeps(state, d, luck);
    WritesAreNoWires(d);
    var provided := ProvidedBy(state, d, luck);
    var models := ModelsOf(provided.state, d.preset.id);
    var rest := Rest(provided.state, d, answers, person, luck);
    WireAgentsHolds(provided.state, ResultOf(d, |models|, Refresh(d.preset.id, luck.models) in luck.refused), models,
                    answers, person, luck);
    SameWiringsHold(rest.outcome.result.agents, provided.state, state, rest.state);
    if rest.outcome.result.agents != [] {
      SameStart(provided.state, state, rest, luck);
      HoldsWithFront(state, provided.trace, rest, luck);
    }
  }

  // ---------- Which agents ----------

  /** All the installed agents, in the daemon's order. */
  ghost predicate AreInstalled(agents: seq<Agent>, chosen: seq<Agent>) {
    exists places :: AtPlaces(agents, chosen, places) &&
      forall i: nat :: i < |agents| ==> (agents[i].installed <==> i in places)
  }

  lemma OneMoreInstalled(front: seq<Agent>, last: Agent, chosen: seq<Agent>)
    requires AreInstalled(front, chosen)
    ensures AreInstalled(front + [last], chosen + if last.installed then [last] else [])
  {
    var places: seq<nat> :| AtPlaces(front, chosen, places) &&
      forall i: nat :: i < |front| ==> (front[i].installed <==> i in places);
    OnePlaceMore(front, chosen, places, last);
    hide AtPlaces;
    var longer := if last.installed then places + [|front|] else places;
    assert chosen + [] == chosen;
    assert AtPlaces(front + [last], chosen + if last.installed then [last] else [], longer);
  }

  lemma {:induction false} InstalledAre(agents: seq<Agent>)
    ensures AreInstalled(agents, Installed(agents))
  {
    if agents == [] {
      assert AtPlaces(agents, [], []);
    } else {
      var front, last := agents[..|agents| - 1], agents[|agents| - 1];
      hide AreInstalled;
      InstalledAre(front);
      OneMoreInstalled(front, last, Installed(front));
      assert front + [last] == agents;
    }
  }

  /** What a person typed: the installed agents with these ids, each once, in the order first typed. */
  predicate AreTyped(agents: seq<Agent>, ids: seq<string>, chosen: seq<Agent>) {
    && (forall agent :: agent in chosen ==> agent in agents && agent.installed && agent.id in ids)
    && (forall id :: id in ids ==> exists agent :: agent in chosen && agent.id == id)
    && (forall j, k :: 0 <= j < k < |chosen| ==>
          IndexOf(ids, chosen[j].id) < IndexOf(ids, chosen[k].id))
  }

  lemma {:induction false} IndexOfLonger(ids: seq<string>, last: string, id: string)
    ensures IndexOf(ids + [last], id) == if id in ids then IndexOf(ids, id) else if id == last then |ids| else |ids| + 1
  {
    var longer := ids + [last];
    if ids != [] {
      assert longer[0] == ids[0] && longer[1..] == ids[1..] + [last];
      IndexOfLonger(ids[1..], last, id);
    }
  }

  predicate HasInstalled(agents: seq<Agent>, id: string) {
    exists agent :: agent in agents && agent.installed && agent.id == id
  }

  lemma FirstInstalled(agents: seq<Agent>, id: string)
    ensures var found := AgentById(Installed(agents), id);
            && (found.Some? ==> found.value in agents && found.value.installed && found.value.id == id)
            && (found.Some? <==> HasInstalled(agents, id))
  {
    InstalledIs(agents);
    FindIs(Installed(agents), (a: Agent) => a.id == id);
  }

  lemma SameTyped(agents: seq<Agent>, ids: seq<string>, picked: seq<Agent>, id: string)
    requires AreTyped(agents, ids, picked) && id in ids
    ensures AreTyped(agents, ids + [id], picked)
  {
    forall agent | agent in picked ensures IndexOf(ids + [id], agent.id) == IndexOf(ids, agent.id) {
      IndexOfLonger(ids, id, agent.id);
    }
    hide IndexOf;
  }

  lemma OrderedLonger(ids: seq<string>, picked: seq<Agent>, agent: Agent)
    requires agent.id !in ids && forall other :: other in picked ==> other.id in ids
    requires forall j, k :: 0 <= j < k < |picked| ==> IndexOf(ids, picked[j].id) < IndexOf(ids, picked[k].id)
    ensures var chosen, longer := picked + [agent], ids + [agent.id];
            forall j, k :: 0 <= j < k < |chosen| ==> IndexOf(longer, chosen[j].id) < IndexOf(longer, chosen[k].id)
  {
    var chosen, longer := picked + [agent], ids + [agent.id];
    IndexOfLonger(ids, agent.id, agent.id);
    forall j, k | 0 <= j < k < |chosen| ensures IndexOf(longer, chosen[j].id) < IndexOf(longer, chosen[k].id) {
      assert chosen[j] == picked[j] && picked[j] in picked;
      IndexOfLonger(ids, agent.id, picked[j].id);
      if k < |picked| {
        assert chosen[k] == picked[k] && picked[k] in picked;
        IndexOfLonger(ids, agent.id, picked[k].id);
      }
    }
  }

  lemma OneMoreTyped(agents: seq<Agent>, ids: seq<string>, picked: seq<Agent>, agent: Agent)
    requires AreTyped(agents, ids, picked) && agent in agents && agent.installed && agent.id !in ids
    ensures AreTyped(agents, ids + [agent.id], picked + [agent])
  {
    hide IndexOf;
    OrderedLonger(ids, picked, agent);
    forall id | id in ids + [agent.id] ensures exists other :: other in picked + [agent] && other.id == id {
      if id in ids {
        var other :| other in picked && other.id == id;
        assert other in picked + [agent];
      } else {
        assert agent in picked + [agent];
      }
    }
  }

  lemma NothingTyped(agents: seq<Agent>)
    ensures AreTyped(agents, [], [])
  {
  }

  lemma TypedHas(agents: seq<Agent>, ids: seq<string>, picked: seq<Agent>, id: string)
    requires AreTyped(agents, ids, picked) && AgentById(Installed(agents), id).Some?
    requires forall agent :: agent in picked ==> Some(agent) == AgentById(Installed(agents), agent.id)
    ensures AgentById(Installed(agents), id).value in picked <==> id in ids
  {
    FirstInstalled(agents, id);
    hide AgentById, Installed, IndexOf;
  }

  /** The typed ids are taken exactly when each is an installed agent's. */
  lemma {:induction false} TypedIs(agents: seq<Agent>, ids: seq<string>)
    ensures Typed(agents, ids) == Halt(Asking) || Typed(agents, ids).Go?
    ensures Typed(agents, ids).Go? <==> forall id :: id in ids ==> HasInstalled(agents, id)
    ensures Typed(agents, ids).Go? ==> AreTyped(agents, ids, Typed(agents, ids).value)
    ensures Typed(agents, ids).Go? ==> forall agent :: agent in Typed(agents, ids).value ==>
              Some(agent) == AgentById(Installed(agents), agent.id)
  {
    hide AgentById, Installed, AreTyped, HasInstalled;
    if ids == [] {
      NothingTyped(agents);
    } else {
      var front, last := ids[..|ids| - 1], ids[|ids| - 1];
      assert ids == front + [last];
      TypedIs(agents, front);
      FirstInstalled(agents, last);
      var found := AgentById(Installed(agents), last);
      if Typed(agents, front).Go? && found.Some? {
        TypedHas(agents, front, Typed(agents, front).value, last);
        if last in front {
          SameTyped(agents, front, Typed(agents, front).value, last);
        } else {
          OneMoreTyped(agents, front, Typed(agents, front).value, found.value);
        }
      }
    }
  }

  /** Which agents are chosen: by the options, or else by the person. */
  ghost predicate AreChosen(agents: seq<Agent>, chosen: seq<Agent>, answers: Answers, person: Option<Person>) {
    if answers.agents.Some? then
      match answers.agents.value
      case Nobody => chosen == []
      case All => AreInstalled(agents, chosen)
      case Ids(ids) => AreNamed(agents, ids, chosen)
    else if person.None? then chosen == []
    else
      match person.value.agents
      case Nobody => chosen == []
      case All => AreInstalled(agents, chosen)
      case Ids(ids) =>
        if exists agent :: agent in agents && agent.installed then AreTyped(agents, ids, chosen) else chosen == []
  }

  lemma AgentsAreChosen(state: State, answers: Answers, person: Option<Person>)
    requires AgentsOf(state, answers, person).Go?
    ensures AreChosen(state.agents, AgentsOf(state, answers, person).value, answers, person)
  {
    hide AreInstalled, AreNamed, AreTyped, Installed, ByIds, Typed;
    InstalledAre(state.agents);
    InstalledIs(state.agents);
    var installed := Installed(state.agents);
    assert installed != [] ==> installed[0] in installed;
    if answers.agents.Some? && answers.agents.value.Ids? {
      ByIdsIs(state.agents, answers.agents.value.ids);
    }
    if person.Some? && person.value.agents.Ids? {
      TypedIs(state.agents, person.value.agents.ids);
    }
  }

  // ---------- The question before the wiring ----------

  /** Without the white space around it and in whichever case, the answer is `y` or `yes`. */
  predicate SaysYes(text: string) {
    Lower(Trim(text)) in ["y", "yes"]
  }

  lemma YesIs(text: string)
    ensures Yes(text) <==> SaysYes(text)
  {
    hide Trim;
    var t, lower := Trim(text), Lower(Trim(text));
    if |t| == 1 {
      assert lower == [lower[0]] && lower[0] == 'y' <==> t[0] in "yY";
    } else if |t| == 3 {
      assert lower == [lower[0], lower[1], lower[2]];
    }
  }

  predicate Agreed(answers: Answers, person: Option<Person>) {
    answers.yes || (person.Some? && SaysYes(person.value.confirmation))
  }

  /** What was shown is to be asked about: it changes something, and `--yes` was not given. */
  predicate IsAsked(trace: seq<Effect>, answers: Answers) {
    !answers.yes && exists e :: e in trace && e.Show? && exists p :: p in e.planned && p.Changes()
  }

  /** After what was shown: the question exactly when it is to be asked and there is someone to answer, and
      an end without wiring exactly when it is not answered with a yes. */
  ghost predicate AsksRightly(ran: Ran, answers: Answers, person: Option<Person>) {
    && (forall text :: Confirm(text) in ran.trace <==>
          IsAsked(ran.trace, answers) && person.Some? && text == person.value.confirmation)
    && (ran.outcome == Declined <==> IsAsked(ran.trace, answers) && !Agreed(answers, person))
    && (ran.outcome == Declined ==> forall e :: e in ran.trace ==> !e.Wire?)
  }

  lemma ShowsOnce(calls: seq<Effect>, planned: seq<Planned>, asks: seq<Effect>, wires: seq<Effect>, answers: Answers,
                  person: Option<Person>)
    requires asks == Asks(planned, answers, person)
    requires (forall e :: e in calls ==> e.Preview?) && forall e :: e in wires ==> e.Wire?
    ensures var trace := calls + [Show(planned)] + asks + wires;
            && (IsAsked(trace, answers) <==> !answers.yes && Changing(planned))
            && (forall text :: Confirm(text) in trace <==> Confirm(text) in asks)
  {
    hide Planned.Changes;
    var trace := calls + [Show(planned)] + asks + wires;
    assert trace[|calls|] == Show(planned) && trace[|calls|] in trace;
  }

  lemma NotAsked(trace: seq<Effect>, answers: Answers)
    requires forall e :: e in trace ==> e.Preview?
    ensures !IsAsked(trace, answers) && forall text :: Confirm(text) !in trace
  {
  }

  lemma PlanAndWireAsks(state: State, result: Result, selection: Selection, answers: Answers, person: Option<Person>,
                        luck: Luck)
    ensures AsksRightly(PlanAndWire(state, result, selection, answers, person, luck), answers, person)
  {
    hide Planning, Previews, WireAll, FirstFailing, Yes, SaysYes, Offers, IsAsked, Changing;
    var planned := Planning(state, selection);
    var calls := Previews(planned);
    var n := FirstFailing(calls, Failing(luck));
    PreviewsAre(planned);
    if n < |calls| {
      assert forall e :: e in calls[..n + 1] ==> e in calls && e.Preview?;
      NotAsked(calls[..n + 1], answers);
    } else {
      WireTrace(state, planned, luck);
      var wires := WireAll(state, planned, luck).trace;
      ShowsOnce(calls, planned, Asks(planned, answers, person), wires, answers, person);
      ShowsOnce(calls, planned, Asks(planned, answers, person), [], answers, person);
      var shown := calls + [Show(planned)] + Asks(planned, answers, person);
      assert shown + [] == shown;
      if person.Some? {
        YesIs(person.value.confirmation);
      }
    }
  }

  lemma SelectNeverDeclines(state: State, models: seq<string>, answers: Answers, person: Option<Person>)
    requires Select(state, models, answers, person).Halt?
    ensures Select(state, models, answers, person).outcome != Declined
  {
    if answers.agents.Some? && answers.agents.value.Ids? {
      ByIdsIs(state.agents, answers.agents.value.ids);
    }
    if person.Some? && person.value.agents.Ids? {
      TypedIs(state.agents, person.value.agents.ids);
    }
    hide ByIds, Typed, Installed, TiersKnown;
  }

  lemma WireAgentsAsks(state: State, result: Result, models: seq<string>, answers: Answers, person: Option<Person>,
                       luck: Luck)
    ensures AsksRightly(WireAgents(state, result, models, answers, person, luck), answers, person)
  {
    hide Select, PlanAndWire, IsAsked, Agreed;
    NotAsked([], answers);
    var selected := Select(state, models, answers, person);
    if selected.Halt? {
      SelectNeverDeclines(state, models, answers, person);
    }
    if luck.lists.Listed? && selected.Go? && selected.value.agents != [] {
      PlanAndWireAsks(state, result, selected.value, answers, person, luck);
    }
  }

  lemma WithFrontAsks(front: seq<Effect>, rest: Ran, answers: Answers, person: Option<Person>)
    requires AsksRightly(rest, answers, person)
    requires forall e :: e in front ==> !e.Show? && !e.Confirm? && !e.Wire?
    ensures AsksRightly(Ran(rest.outcome, rest.state, front + rest.trace), answers, person)
  {
    hide Agreed, Planned.Changes;
    var trace := front + rest.trace;
    assert forall e :: e in rest.trace ==> e in trace;
    assert IsAsked(trace, answers) <==> IsAsked(rest.trace, answers);
  }

  /** The person stopped at a provider that differs, before anything was written. */
  predicate Stopped(ran: Ran, state: State, answers: Answers, person: Option<Person>) {
    && ran == Ran(Declined, state, []) && person.Some? && person.value.difference == Stop
    && ProviderId(answers, person) in state.providers
  }

  lemma StopsAtDifference(state: State, answers: Answers, person: Option<Person>, luck: Luck)
    requires Decide(state, answers, person, luck) == Halt(Declined)
    ensures person.Some? && person.value.difference == Stop && ProviderId(answers, person) in state.providers
  {
    hide Known, Chosen, Moved, Fixed, ByIds, Installed, ProviderId;
    PresetIs(state, answers, person);
    if answers.agents.Some? && answers.agents.value.Ids? {
      ByIdsIs(state.agents, answers.agents.value.ids);
    }
  }

  lemma HaltAsks(outcome: Outcome, state: State, answers: Answers, person: Option<Person>)
    requires outcome != Declined
    ensures AsksRightly(Ran(outcome, state, []), answers, person)
  {
    NotAsked([], answers);
  }

  lemma ThrewAsks(state: State, answers: Answers, person: Option<Person>)
    ensures AsksRightly(Ran(Threw, state, []), answers, person)
  {
    HaltAsks(Threw, state, answers, person);
  }

  /** Over every run: the question is put exactly when what was shown changes something, `--yes` was not
      given and there is a person; without a yes nothing is wired, and the run ends as declined exactly
      then, or where a person stops at a provider that differs. */
  lemma AskedExactly(state: State, answers: Answers, person: Option<Person>, luck: Luck)
    ensures var ran := Run(state, answers, person, luck);
            AsksRightly(ran, answers, person) || Stopped(ran, state, answers, person)
  {
    hide Run, Decide, Writes, WireAgents, ProvidedBy, AsksRightly;
    RunIs(state, answers, person, luck);
    var decided := Decide(state, answers, person, luck);
    if decided.Go? {
      var d := decided.value;
      ProvidedKeeps(state, d, luck);
      WritesAreNoWires(d);
      var provided := ProvidedBy(state, d, luck);
      var models := ModelsOf(provided.state, d.preset.id);
      var result := ResultOf(d, |models|, Refresh(d.preset.id, luck.models) in luck.refused);
      WireAgentsAsks(provided.state, result, models, answers, person, luck);
      ThrewAsks(provided.state, answers, person);
      var rest := if provided.goesOn then Rest(provided.state, d, answers, person, luck)
                  else Ran(Threw, provided.state, []);
      WithFrontAsks(provided.trace, rest, answers, person);
      assert provided.trace + [] == provided.trace;
    } else if decided.outcome == Declined {
      StopsAtDifference(state, answers, person, luck);
    } else {
      HaltAsks(decided.outcome, state, answers, person);
    }
  }

  // ---------- When a run is done ----------

  /** Every named agent is an installed one. */
  predicate IsNamedRightly(agents: seq<Agent>, answers: Answers, person: Option<Person>) {
    if answers.agents.Some? then
      answers.agents.value.Ids? ==> forall id :: id in answers.agents.value.ids ==> IsHere(agents, id)
    else
      person.Some? && person.value.agents.Ids? && (exists agent :: agent in agents && agent.installed) ==>
        forall id :: id in person.value.agents.ids ==> HasInstalled(agents, id)
  }

  lemma NamedRightly(state: State, answers: Answers, person: Option<Person>)
    ensures AgentsOf(state, answers, person).Go? <==> IsNamedRightly(state.agents, answers, person)
  {
    hide IsHere, HasInstalled, ByIds, Typed, Installed;
    InstalledIs(state.agents);
    var installed := Installed(state.agents);
    assert installed != [] ==> installed[0] in installed;
    if answers.agents.Some? && answers.agents.value.Ids? {
      ByIdsIs(state.agents, answers.agents.value.ids);
    }
    if person.Some? && person.value.agents.Ids? {
      TypedIs(state.agents, person.value.agents.ids);
    }
  }

  /** For these agents, when there are any, there is a model, given or picked among the provider's, and each
      given tier is some agent's. */
  ghost predicate IsEquipped(chosen: seq<Agent>, models: seq<string>, answers: Answers, person: Option<Person>) {
    chosen != [] ==>
      && (answers.model.Some? || (person.Some? && person.value.model in models))
      && exists given :: Gives(given, chosen, answers, person)
           && forall tier :: tier in given ==> exists agent :: agent in chosen && tier in agent.tiers
  }

  lemma NoTiersKnown(chosen: seq<Agent>)
    ensures TiersKnown(chosen, map[])
  {
  }

  lemma TiersExactly(chosen: seq<Agent>, answers: Answers, person: Option<Person>)
    ensures TiersOf(chosen, answers, person).Go? <==>
              exists given :: Gives(given, chosen, answers, person) && TiersKnown(chosen, given)
  {
    hide TiersKnown;
    var given := if answers.tiers.Some? then answers.tiers.value
                 else if person.Some? && SomeTiers(chosen) then person.value.tiers else map[];
    assert Gives(given, chosen, answers, person);
    if answers.tiers.None? && !(person.Some? && SomeTiers(chosen)) {
      NoTiersKnown(chosen);
    }
  }

  /** The agents, the model and the tiers are selected exactly when they can be. */
  lemma SelectsExactly(state: State, models: seq<string>, answers: Answers, person: Option<Person>)
    ensures Select(state, models, answers, person).Go? <==>
              && IsNamedRightly(state.agents, answers, person)
              && AgentsOf(state, answers, person).Go?
              && IsEquipped(AgentsOf(state, answers, person).value, models, answers, person)
  {
    hide AgentsOf, IsNamedRightly, Gives, TiersOf;
    NamedRightly(state, answers, person);
    var chosen := AgentsOf(state, answers, person);
    if chosen.Go? {
      TiersExactly(chosen.value, answers, person);
    }
  }

  /** A call to the daemon, whose answer a run waits for. */
  predicate IsCall(e: Effect) { !e.Show? && !e.Confirm? }

  /** An error that ends a run: a lost call, a refused one other than a wiring, or a refused refresh when the
      provider cannot be read again. */
  predicate Ends(e: Effect, luck: Luck) {
    IsCall(e) && (e in luck.lost || (e in luck.refused && !e.Wire? && (e.Refresh? ==> !luck.rereads)))
  }

  ghost predicate NothingEnds(trace: seq<Effect>, luck: Luck) {
    forall e :: e in trace ==> !Ends(e, luck)
  }

  lemma {:induction false} NothingWasLost(state: State, planned: seq<Planned>, luck: Luck)
    requires !WireAll(state, planned, luck).threw
    ensures NothingEnds(WireAll(state, planned, luck).trace, luck)
  {
    hide StateAfter, Apply, Accepts;
    if planned != [] {
      NothingWasLost(state, planned[..|planned| - 1], luck);
    }
  }

  lemma LostEnds(trace: seq<Effect>, front: seq<Effect>, luck: Luck)
    requires LostWire(trace, luck)
    ensures !NothingEnds(front + trace, luck)
  {
    var e :| e in trace && e.Wire? && e in luck.lost;
    assert e in front + trace;
  }

  lemma ShownEnds(calls: seq<Effect>, planned: seq<Planned>, asks: seq<Effect>, wires: seq<Effect>, luck: Luck)
    requires (forall e :: e in calls ==> e.Preview? && e !in Failing(luck)) && forall e :: e in asks ==> e.Confirm?
    ensures NothingEnds(calls + [Show(planned)] + asks + wires, luck) <==> NothingEnds(wires, luck)
  {
    var trace := calls + [Show(planned)] + asks + wires;
    assert forall e :: e in wires ==> e in trace;
    assert forall e :: e in trace && Ends(e, luck) ==> e in wires;
  }

  lemma PlanAndWireDone(state: State, result: Result, selection: Selection, answers: Answers, person: Option<Person>,
                        luck: Luck)
    ensures var ran := PlanAndWire(state, result, selection, answers, person, luck);
            ran.outcome.Done? <==>
              NothingEnds(ran.trace, luck) && !(IsAsked(ran.trace, answers) && !Agreed(answers, person))
  {
    PlanAndWireAsks(state, result, selection, answers, person, luck);
    hide Planning, Previews, WireAll, FirstFailing, IsAsked, Agreed, Offers, Changing, MayWire, LostWire;
    var planned := Planning(state, selection);
    var calls := Previews(planned);
    var n := FirstFailing(calls, Failing(luck));
    PreviewsAre(planned);
    if n < |calls| {
      assert calls[n] in calls && calls[n] in calls[..n + 1] && Ends(calls[n], luck);
    } else {
      assert forall e :: e in calls ==> e !in Failing(luck);
      var asks := Asks(planned, answers, person);
      var wired := WireAll(state, planned, luck);
      ShownEnds(calls, planned, asks, wired.trace, luck);
      ShownEnds(calls, planned, asks, [], luck);
      assert calls + [Show(planned)] + asks + [] == calls + [Show(planned)] + asks;
      if wired.threw {
        ThrowsByALostWire(state, planned, luck);
        LostEnds(wired.trace, [], luck);
        assert [] + wired.trace == wired.trace;
      } else {
        NothingWasLost(state, planned, luck);
      }
    }
  }

  lemma ProvidedEnds(state: State, d: Decision, luck: Luck)
    ensures var provided := ProvidedBy(state, d, luck); provided.goesOn <==> NothingEnds(provided.trace, luck)
  {
    hide Writes, ApplyAll, StateAfter;
    var writes, refresh := Writes(d), Refresh(d.preset.id, luck.models);
    var n := FirstFailing(writes, Failing(luck));
    WritesAreNoWires(d);
    if n < |writes| {
      assert writes[n] in writes && writes[n] in writes[..n + 1] && Ends(writes[n], luck);
    } else {
      assert forall e :: e in writes ==> e !in Failing(luck);
      assert refresh in writes + [refresh];
    }
  }

  lemma SelectSame(a: State, b: State, models: seq<string>, answers: Answers, person: Option<Person>)
    requires a.agents == b.agents
    ensures Select(a, models, answers, person) == Select(b, models, answers, person)
  {
    hide AgentsOf;
    SameAgentsOf(a, b, answers, person);
  }

  /** Nothing stands between the models and the end of a run. */
  ghost predicate Finishes(ran: Ran, models: seq<string>, answers: Answers, person: Option<Person>, luck: Luck) {
    && NothingEnds(ran.trace, luck) && !luck.lists.Unreachable?
    && (luck.lists.Listed? ==> Select(ran.state, models, answers, person).Go?)
    && !(IsAsked(ran.trace, answers) && !Agreed(answers, person))
  }

  lemma WireAgentsDone(state: State, result: Result, models: seq<string>, answers: Answers, person: Option<Person>,
                       luck: Luck)
    requires result.agents == []
    ensures var ran := WireAgents(state, result, models, answers, person, luck);
            ran.outcome.Done? <==> Finishes(ran, models, answers, person, luck)
  {
    WireAgentsCarries(state, result, models, answers, person, luck);
    var ran := WireAgents(state, result, models, answers, person, luck);
    SelectSame(ran.state, state, models, answers, person);
    NotAsked([], answers);
    hide Select, PlanAndWire, IsAsked, Agreed, Carries, ReportsAnswered;
    var selected := Select(state, models, answers, person);
    if luck.lists.Listed? && selected.Go? && selected.value.agents != [] {
      PlanAndWireDone(state, result, selected.value, answers, person, luck);
    }
  }

  lemma WithFrontFinishes(front: seq<Effect>, rest: Ran, models: seq<string>, answers: Answers, person: Option<Person>,
                          luck: Luck)
    requires forall e :: e in front ==> !e.Show?
    ensures Finishes(Ran(rest.outcome, rest.state, front + rest.trace), models, answers, person, luck) <==>
              NothingEnds(front, luck) && Finishes(rest, models, answers, person, luck)
  {
    hide Select, Agreed, Planned.Changes, Ends;
    var trace := front + rest.trace;
    assert forall e :: e in trace <==> e in front || e in rest.trace;
    assert IsAsked(trace, answers) <==> IsAsked(rest.trace, answers);
    assert NothingEnds(trace, luck) <==> NothingEnds(front, luck) && NothingEnds(rest.trace, luck);
  }

  lemma SameModels(a: State, b: State, id: string)
    ensures a.providers == b.providers ==> ModelsOf(a, id) == ModelsOf(b, id)
  {
  }

  lemma EndedBefore(ran: Ran, models: seq<string>, answers: Answers, person: Option<Person>, luck: Luck)
    requires !NothingEnds(ran.trace, luck)
    ensures !Finishes(ran, models, answers, person, luck)
  {
  }

  /** A run is done exactly when it went on to write, no error ended it, the agents can be listed or the daemon
      has none, the selection could be made, and what was asked was answered with a yes. */
  lemma DoneExactly(state: State, answers: Answers, person: Option<Person>, luck: Luck)
    ensures var ran := Run(state, answers, person, luck);
            ran.outcome.Done? <==>
              && Decide(state, answers, person, luck).Go?
              && Finishes(ran, ModelsOf(ran.state, ProviderId(answers, person)), answers, person, luck)
  {
    hide Run, Decide, Writes, WireAgents, ProvidedBy, ModelsOf, Finishes, ProviderId;
    RunIs(state, answers, person, luck);
    var decided := Decide(state, answers, person, luck);
    if decided.Go? {
      var d := decided.value;
      DecidedPreset(state, answers, person, luck);
      ProvidedKeeps(state, d, luck);
      ProvidedEnds(state, d, luck);
      WritesAreNoWires(d);
      var provided := ProvidedBy(state, d, luck);
      var models := ModelsOf(provided.state, d.preset.id);
      var result := ResultOf(d, |models|, Refresh(d.preset.id, luck.models) in luck.refused);
      var rest := Rest(provided.state, d, answers, person, luck);
      WireAgentsCarries(provided.state, result, models, answers, person, luck);
      SameModels(provided.state, rest.state, d.preset.id);
      if provided.goesOn {
        WireAgentsDone(provided.state, result, models, answers, person, luck);
        WithFrontFinishes(provided.trace, rest, models, answers, person, luck);
      } else {
        EndedBefore(Ran(Threw, provided.state, provided.trace), models, answers, person, luck);
      }
    }
  }
}
