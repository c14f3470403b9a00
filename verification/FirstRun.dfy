/** The first-run wizard: packages/cli/src/init.ts, `runInit`, `chosenAgents` and `sameWiring`, with
    `rebase` of packages/cli/src/admin.ts and `choosePreset` of packages/core/src/provider-presets.ts.

    The daemon is a small contract: `Apply` says what each accepted call changes, `PlanOf` what a
    preview answers. What a person picks at the terminal, what a vendor lists and which calls the
    daemon refuses are parameters. */
module FirstRun {
  import opened Optional
  import opened Text

  // ---------- Presets, providers and agents ----------

  /** An endpoint of a preset, with the path a URL parser reads in it. */
  datatype Endpoint = Endpoint(url: string, pathname: string)

  datatype Choice = Choice(id: string, endpoints: Option<map<string, Endpoint>>)

  datatype Preset = Preset(id: string, regions: Option<seq<Choice>>, plans: Option<seq<Choice>>,
                           endpoints: map<string, Endpoint>, userEndpoint: bool, local: bool,
                           takesKey: bool, takesNone: bool, models: seq<string>)

  datatype Provider = Provider(preset: Option<string>, region: Option<string>, plan: Option<string>,
                               endpoints: map<string, string>, keys: seq<string>, models: seq<string>)

  datatype KeyState = Active | Suspended | Revoked | Expired | Missing | Keyless

  datatype Wiring = Wiring(model: Option<string>, tiers: map<string, string>, key: KeyState,
                           drifted: bool, driftError: bool)

  datatype Agent = Agent(id: string, installed: bool, tiers: set<string>)

  /** What the daemon holds. Providers and wirings are kept by id. */
  datatype State = State(presets: seq<Preset>, agents: seq<Agent>,
                         providers: map<string, Provider>, wirings: map<string, Wiring>)

  /** An http(s) origin, such as `http://10.0.0.2:3180`. */
  type Origin = text: string | text != "" && text[|text| - 1] != '/' witness "h"

  /** What a URL parser makes of `--base`. */
  datatype Base = BadBase | Base(origin: Origin, pathname: string)

  datatype Given = All | Nobody | Ids(ids: seq<string>)

  /** What the options answer. */
  datatype Answers = Answers(preset: Option<string>, region: Option<string>, plan: Option<string>,
                             base: Option<Base>, credential: Option<string>, agents: Option<Given>,
                             model: Option<string>, tiers: Option<map<string, string>>, yes: bool)

  datatype AtDifference = Update | Keep | Stop

  /** The last answer a person gives to each question. The wizard asks again, for ever, when that is
      not one it takes. */
  datatype Person = Person(preset: string, region: string, plan: string, base: Option<Base>,
                           difference: AtDifference, secret: string, agents: Given, model: string,
                           tiers: map<string, string>, confirmation: string)

  datatype Input = Input(model: string, tiers: Option<map<string, string>>)

  /** A preview: the wiring it was made for, and the one it leads to. */
  datatype Plan = Plan(before: Option<Wiring>, after: Wiring) {
    predicate Changed() { before != Some(after) }
  }

  /** A chosen agent, at its place among them, and what it is to be wired to. */
  datatype Planned = Planned(place: nat, agent: Agent, input: Input, plan: Option<Plan>) {
    predicate Changes() { plan.Some? && plan.value.Changed() }
  }

  /** What a run does, in order: calls to the daemon, the preview shown, and the confirmation. */
  datatype Effect =
    | Create(preset: Preset, region: Option<string>, plan: Option<string>,
             endpoints: Option<map<string, string>>, credential: Option<string>)
    | Move(provider: string, to: map<string, string>)
    | AddKey(provider: string, value: string)
    | Refresh(provider: string, listed: seq<string>)
    | Preview(place: nat, agent: string, input: Input)
    | Show(planned: seq<Planned>)
    | Confirm(text: string)
    | Wire(place: nat, agent: string, input: Input, confirmed: Plan)

  datatype Report = Wired | Unchanged | Failed

  datatype Entry = Entry(agent: string, input: Input, report: Report)

  datatype Result = Result(provider: string, created: bool, updated: bool, keyUnused: bool,
                           models: nat, refreshFailed: bool, agents: seq<Entry>)

  /** `Usage` and `Declined` are the errors `UsageError` and `ConfirmationRequired`; `Threw` is a
      call's error that the run does not catch; `Asking` never ends. */
  datatype Outcome = Done(result: Result) | Usage | Declined | Threw | Asking

  type Stopped = outcome: Outcome | !outcome.Done? witness Usage

  datatype Step<T> = Go(value: T) | Halt(outcome: Stopped) {
    predicate IsFailure() { Halt? }
    function PropagateFailure<U>(): Step<U> requires Halt? { Halt(outcome) }
    function Extract(): T requires Go? { value }
  }

  /** How listing the agents goes: it answers, the daemon says that it cannot, or it cannot be reached. */
  datatype Listing = Listed | Unsupported | Unreachable

  /** What goes on beside one run. The daemon answers `refused` calls with an error. The connection
      breaks at `lost` calls, of which the `landed` ones took effect. `presets`, `providers` and
      `rereads` say whether the other reads answer; `listsFirst` and `lists` how the agents are
      listed before anything is added, and after; `models` are what the vendor lists. Calls are told
      apart by what they ask and by the agent's place, so that each call of a run fares on its own. */
  datatype Luck = Luck(refused: set<Effect>, lost: set<Effect>, landed: set<Effect>, presets: bool, providers: bool,
                       rereads: bool, listsFirst: Listing, lists: Listing, models: seq<string>)

  // ---------- The daemon ----------

  /** `Array.find`. */
  function Find<T>(items: seq<T>, matches: T -> bool): Option<T> {
    if items == [] then None
    else if matches(items[0]) then Some(items[0])
    else Find(items[1..], matches)
  }

  lemma {:induction false} FindIs<T>(items: seq<T>, matches: T -> bool)
    ensures var found := Find(items, matches);
            && (found.Some? ==> found.value in items && matches(found.value))
            && (found.None? ==> forall item :: item in items ==> !matches(item))
  {
    if items != [] {
      FindIs(items[1..], matches);
    }
  }

  function Pick(options: Option<seq<Choice>>, id: Option<string>): Option<Choice> {
    if options.None? then None
    else if id.None? then (if options.value == [] then None else Some(options.value[0]))
    else Find(options.value, (c: Choice) => c.id == id.value)
  }

  predicate Known(options: Option<seq<Choice>>, id: Option<string>) {
    id.Some? ==> options.Some? && exists c :: c in options.value && c.id == id.value
  }

  /** `choosePreset`: endpoints from the plan, then the region, then the preset. */
  function Chosen(preset: Preset, region: Option<string>, plan: Option<string>): map<string, Endpoint> {
    var r, p := Pick(preset.regions, region), Pick(preset.plans, plan);
    if p.Some? && p.value.endpoints.Some? then p.value.endpoints.value
    else if r.Some? && r.value.endpoints.Some? then r.value.endpoints.value
    else preset.endpoints
  }

  function Recorded(options: Option<seq<Choice>>, id: Option<string>): Option<string> {
    if id.Some? then id else if Pick(options, id).Some? then Some(Pick(options, id).value.id) else None
  }

  function WiringOf(state: State, agent: string): Option<Wiring> {
    if agent in state.wirings then Some(state.wirings[agent]) else None
  }

  /** Wiring stores the model and any given tiers, makes the key active and removes drift. */
  function Rewired(before: Option<Wiring>, input: Input): Wiring {
    var tiers := if input.tiers.Some? then input.tiers.value else if before.Some? then before.value.tiers else map[];
    Wiring(Some(input.model), tiers, Active, false, false)
  }

  function PlanOf(state: State, agent: string, input: Input): Plan {
    Plan(WiringOf(state, agent), Rewired(WiringOf(state, agent), input))
  }

  function Apply(state: State, effect: Effect): State {
    match effect
    case Create(preset, region, plan, endpoints, credential) =>
      var own := Chosen(preset, region, plan);
      var urls := (map protocol | protocol in own :: own[protocol].url) +
          (if endpoints.Some? then endpoints.value else map[]);
      var keys := if credential.Some? then [credential.value] else [];
      state.(providers := state.providers[preset.id :=
        Provider(Some(preset.id), Recorded(preset.regions, region), Recorded(preset.plans, plan), urls, keys,
            preset.models)])
    case Move(id, to) =>
      if id !in state.providers then state
      else
        var provider := state.providers[id];
        state.(providers := state.providers[id := provider.(endpoints := provider.endpoints + to)])
    case AddKey(id, value) =>
      if id !in state.providers then state
      else state.(providers := state.providers[id := state.providers[id].(keys := state.providers[id].keys + [value])])
    case Refresh(id, listed) =>
      if id !in state.providers then state
      else state.(providers := state.providers[id := state.providers[id].(models := listed)])
    case Wire(_, agent, input, confirmed) =>
      state.(wirings := state.wirings[agent := Rewired(WiringOf(state, agent), input)])
    case _ => state
  }

  function ApplyAll(state: State, effects: seq<Effect>): State {
    if effects == [] then state else Apply(ApplyAll(state, effects[..|effects| - 1]), effects[|effects| - 1])
  }

  /** A confirmed plan must still be what a preview answers. */
  predicate Accepts(state: State, effect: Effect) {
    effect.Wire? ==> effect.confirmed == PlanOf(state, effect.agent, effect.input)
  }

  datatype Reply = Accepted | Refused | Lost

  function ReplyTo(state: State, effect: Effect, luck: Luck): Reply {
    if effect in luck.lost then Lost
    else if effect in luck.refused || !Accepts(state, effect) then Refused
    else Accepted
  }

  function StateAfter(state: State, effect: Effect, luck: Luck): State {
    match ReplyTo(state, effect, luck)
    case Accepted => Apply(state, effect)
    case Refused => state
    case Lost => if effect in luck.landed && Accepts(state, effect) then Apply(state, effect) else state
  }

  // ---------- rebase ----------

  function Unslashed(text: string): string {
    if text != "" && text[|text| - 1] == '/' then Unslashed(text[..|text| - 1]) else text
  }

  function Rebased(endpoints: map<string, Endpoint>, base: Base): map<string, string>
    requires base.Base?
  {
    map protocol | protocol in endpoints ::
      base.origin + Unslashed(base.pathname) + Unslashed(endpoints[protocol].pathname)
  }

  /** The rebased endpoints that the ones here do not have. */
  function Moved(endpoints: map<string, Endpoint>, base: Option<Base>, here: map<string, string>): map<string, string>
    requires base.Some? ==> base.value.Base?
  {
    if base.None? then map[]
    else
      var asked := Rebased(endpoints, base.value);
      map protocol | protocol in asked && (protocol in here ==> Unslashed(here[protocol]) != asked[protocol]) ::
        asked[protocol]
  }

  lemma {:induction false} UnslashedEnds(text: string)
    ensures Unslashed(text) == "" || Unslashed(text)[|Unslashed(text)| - 1] != '/'
  {
    if text != "" && text[|text| - 1] == '/' {
      UnslashedEnds(text[..|text| - 1]);
    }
  }

  /** No rebased endpoint ends with a slash. */
  lemma RebasedEnds(endpoints: map<string, Endpoint>, base: Base, protocol: string)
    requires base.Base? && protocol in endpoints
    ensures var url := Rebased(endpoints, base)[protocol]; Unslashed(url) == url
  {
    var url := Rebased(endpoints, base)[protocol];
    var prefix, path := Unslashed(base.pathname), Unslashed(endpoints[protocol].pathname);
    UnslashedEnds(base.pathname);
    UnslashedEnds(endpoints[protocol].pathname);
    assert url == base.origin + prefix + path;
    assert url[|url| - 1] ==
        if path != "" then path[|path| - 1]
        else if prefix != "" then prefix[|prefix| - 1]
        else base.origin[|base.origin| - 1];
  }

  /** Endpoints that were moved, or that hold the rebased ones, are not moved again. */
  lemma MovedStays(endpoints: map<string, Endpoint>, base: Option<Base>, here: map<string, string>)
    requires base.Some? ==> base.value.Base?
    ensures Moved(endpoints, base, here + Moved(endpoints, base, here)) == map[]
    ensures base.Some? ==> Moved(endpoints, base, here + Rebased(endpoints, base.value)) == map[]
  {
    if base.Some? {
      forall protocol | protocol in endpoints
        ensures Unslashed(Rebased(endpoints, base.value)[protocol]) == Rebased(endpoints, base.value)[protocol]
      {
        RebasedEnds(endpoints, base.value, protocol);
      }
    }
  }

  // ---------- Before the first write ----------

  /** What the wizard has decided when it starts writing. */
  datatype Decision = Decision(preset: Preset, existing: Option<Provider>, region: Option<string>,
                               plan: Option<string>, endpoints: Option<map<string, string>>,
                               moveTo: Option<map<string, string>>, credential: Option<string>)

  function PresetById(presets: seq<Preset>, id: string): Option<Preset> {
    Find(presets, (p: Preset) => p.id == id)
  }

  function AgentById(agents: seq<Agent>, id: string): Option<Agent> {
    Find(agents, (a: Agent) => a.id == id)
  }

  function PresetOf(state: State, answers: Answers, person: Option<Person>): Step<Preset> {
    if answers.preset.Some? then
      var found := PresetById(state.presets, answers.preset.value);
      if found.Some? then Go(found.value) else Halt(Usage)
    else if person.Some? then
      var found := PresetById(state.presets, person.value.preset);
      if found.Some? then Go(found.value) else Halt(Asking)
    else Halt(Usage)
  }

  /** A region or plan: given, or asked for when the preset has some. */
  function Asked(given: Option<string>, picked: Option<string>, options: Option<seq<Choice>>): Step<Option<string>> {
    if given.Some? || picked.None? || options.None? then Go(given)
    else if Known(options, picked) then Go(picked)
    else Halt(Asking)
  }

  function BaseOf(preset: Preset, isHere: bool, given: Option<Base>, asking: Option<Person>): Step<Option<Base>> {
    if given.Some? then Go(given)
    else if asking.Some? && (preset.userEndpoint || preset.local) then
      var base := asking.value.base;
      if (if base.Some? then base.value.Base? else !preset.userEndpoint) then Go(base) else Halt(Asking)
    else if !isHere && preset.userEndpoint then Halt(Usage)
    else Go(None)
  }

  /** The options that differ from what the provider was added with. */
  predicate Fixed(provider: Provider, preset: Preset, answers: Answers) {
    || provider.preset != Some(preset.id)
    || (answers.region.Some? && answers.region != provider.region)
    || (answers.plan.Some? && answers.plan != provider.plan)
  }

  /** Where to move the endpoints of the provider that is here, if anywhere. */
  function MoveOf(provider: Provider, preset: Preset, chosen: map<string, Endpoint>, base: Option<Base>,
                  answers: Answers, person: Option<Person>): Step<Option<map<string, string>>>
  {
    if base.Some? && base.value.BadBase? then Halt(Usage)
    else
      var moved := Moved(chosen, base, provider.endpoints);
      var fixed := Fixed(provider, preset, answers);
      if !fixed && moved == map[] then Go(None)
      else if person.None? then Halt(Usage)
      else match person.value.difference
        case Update => if fixed then Halt(Asking) else Go(Some(moved))
        case Keep => Go(None)
        case Stop => Halt(Declined)
  }

  function Installed(agents: seq<Agent>): seq<Agent> {
    if agents == [] then []
    else
      var last := agents[|agents| - 1];
      Installed(agents[..|agents| - 1]) + (if last.installed then [last] else [])
  }

  function ByIds(agents: seq<Agent>, ids: seq<string>): Step<seq<Agent>> {
    if ids == [] then Go([])
    else
      var first := AgentById(agents, ids[0]);
      if first.None? || !first.value.installed then Halt(Usage)
      else
        var rest :- ByIds(agents, ids[1..]);
        Go([first.value] + rest)
  }

  function ChosenAgents(agents: seq<Agent>, given: Given): Step<seq<Agent>> {
    match given
    case Nobody => Go([])
    case All => Go(Installed(agents))
    case Ids(ids) => ByIds(agents, ids)
  }

  /** Without a terminal, the agents are checked before anything is added. */
  function Checked(state: State, answers: Answers, luck: Luck): Step<()> {
    if answers.agents.None? || answers.agents.value.Nobody? then Go(())
    else match luck.listsFirst
      case Unreachable => Halt(Threw)
      case Unsupported => Go(())
      case Listed =>
        var chosen :- ChosenAgents(state.agents, answers.agents.value);
        if chosen != [] && answers.model.None? then Halt(Usage) else Go(())
  }

  function KeyOf(preset: Preset, existing: Option<Provider>, answers: Answers, person: Option<Person>)
    : Step<Option<string>>
  {
    var needsKey := preset.takesKey && (existing.Some? ==> existing.value.keys == []);
    if answers.credential.Some? || !needsKey then Go(answers.credential)
    else if person.Some? && person.value.secret != "" then Go(Some(person.value.secret))
    else if preset.takesNone then Go(None)
    else Halt(Usage)
  }

  /** The endpoints a new provider is created with. */
  function EndpointsOf(chosen: map<string, Endpoint>, base: Option<Base>, isHere: bool)
    : Step<Option<map<string, string>>>
  {
    if isHere || base.None? then Go(None)
    else if base.value.BadBase? then Halt(Usage)
    else Go(Some(Rebased(chosen, base.value)))
  }

  function Read(answers: bool): Step<()> {
    if answers then Go(()) else Halt(Threw)
  }

  function Decide(state: State, answers: Answers, person: Option<Person>, luck: Luck): Step<Decision> {
    var _ :- Read(luck.presets);
    var preset :- PresetOf(state, answers, person);
    var _ :- Read(luck.providers);
    var existing := if preset.id in state.providers then Some(state.providers[preset.id]) else None;
    var asking := if existing.Some? then None else person;
    var region :- Asked(answers.region, if asking.Some? then Some(asking.value.region) else None, preset.regions);
    var plan :- Asked(answers.plan, if asking.Some? then Some(asking.value.plan) else None, preset.plans);
    if !Known(preset.regions, region) || !Known(preset.plans, plan) then Halt(Usage) else
    var chosen := Chosen(preset, region, plan);
    var base :- BaseOf(preset, existing.Some?, answers.base, asking);
    var moveTo :- if existing.Some? then MoveOf(existing.value, preset, chosen, base, answers, person) else Go(None);
    var _ :- if person.None? then Checked(state, answers, luck) else Go(());
    var credential :- KeyOf(preset, existing, answers, person);
    var endpoints :- EndpointsOf(chosen, base, existing.Some?);
    Go(Decision(preset, existing, region, plan, endpoints, moveTo, credential))
  }

  // ---------- The provider, its models, the agents ----------

  /** What is written of the provider. */
  function Writes(d: Decision): seq<Effect> {
    if d.existing.None? then [Create(d.preset, d.region, d.plan, d.endpoints, d.credential)]
    else
      (if d.moveTo.Some? then [Move(d.preset.id, d.moveTo.value)] else []) +
      (if d.credential.Some? && d.existing.value.keys == [] then [AddKey(d.preset.id, d.credential.value)] else [])
  }

  /** The calls that fail, whichever way. */
  function Failing(luck: Luck): set<Effect> {
    luck.refused + luck.lost
  }

  /** The place of the first failing call. */
  function FirstFailing(calls: seq<Effect>, failing: set<Effect>): (n: nat)
    ensures n <= |calls| && (n < |calls| ==> calls[n] in failing)
    ensures forall k :: 0 <= k < n ==> calls[k] !in failing
  {
    if calls == [] || calls[0] in failing then 0 else 1 + FirstFailing(calls[1..], failing)
  }

  datatype Selection = Selection(agents: seq<Agent>, model: string, tiers: map<string, string>)

  /** What a person typed: each installed agent once. */
  function Typed(agents: seq<Agent>, ids: seq<string>): Step<seq<Agent>> {
    if ids == [] then Go([])
    else
      var picked :- Typed(agents, ids[..|ids| - 1]);
      var last := AgentById(Installed(agents), ids[|ids| - 1]);
      if last.None? then Halt(Asking)
      else Go(if last.value in picked then picked else picked + [last.value])
  }

  function AgentsOf(state: State, answers: Answers, person: Option<Person>): Step<seq<Agent>> {
    if answers.agents.Some? then ChosenAgents(state.agents, answers.agents.value)
    else if person.None? || Installed(state.agents) == [] then Go([])
    else match person.value.agents
      case Nobody => Go([])
      case All => Go(Installed(state.agents))
      case Ids(ids) => Typed(state.agents, ids)
  }

  function ModelOf(models: seq<string>, answers: Answers, person: Option<Person>): Step<string> {
    if answers.model.Some? then Go(answers.model.value)
    else if person.None? || models == [] then Halt(Usage)
    else if person.value.model in models then Go(person.value.model)
    else Halt(Asking)
  }

  /** Every given tier is one of some chosen agent. */
  predicate TiersKnown(agents: seq<Agent>, tiers: map<string, string>) {
    forall tier :: tier in tiers ==> exists agent :: agent in agents && tier in agent.tiers
  }

  predicate SomeTiers(agents: seq<Agent>) {
    exists agent :: agent in agents && agent.tiers != {}
  }

  function TiersOf(agents: seq<Agent>, answers: Answers, person: Option<Person>): Step<map<string, string>> {
    if answers.tiers.Some? then
      (if TiersKnown(agents, answers.tiers.value) then Go(answers.tiers.value) else Halt(Usage))
    else if person.Some? && SomeTiers(agents) then
      (if TiersKnown(agents, person.value.tiers) then Go(person.value.tiers) else Halt(Asking))
    else Go(map[])
  }

  function Select(state: State, models: seq<string>, answers: Answers, person: Option<Person>): Step<Selection> {
    var agents :- AgentsOf(state, answers, person);
    if agents == [] then Go(Selection([], "", map[])) else
    var model :- ModelOf(models, answers, person);
    var tiers :- TiersOf(agents, answers, person);
    Go(Selection(agents, model, tiers))
  }

  // ---------- The preview and the wiring ----------

  predicate SameWiring(wiring: Option<Wiring>, input: Input) {
    && wiring.Some?
    && wiring.value.model == Some(input.model)
    && wiring.value.tiers == (if input.tiers.Some? then input.tiers.value else map[])
    && (wiring.value.key == Active || wiring.value.key == Keyless)
    && !wiring.value.drifted && !wiring.value.driftError
  }

  function InputOf(agent: Agent, selection: Selection): Input {
    var own := map tier | tier in selection.tiers && tier in agent.tiers :: selection.tiers[tier];
    Input(selection.model, if own == map[] then None else Some(own))
  }

  function PlannedFor(state: State, place: nat, agent: Agent, input: Input): Planned {
    Planned(place, agent, input,
            if SameWiring(WiringOf(state, agent.id), input) then None else Some(PlanOf(state, agent.id, input)))
  }

  function Planning(state: State, selection: Selection): seq<Planned> {
    seq(|selection.agents|, k requires 0 <= k < |selection.agents| =>
      PlannedFor(state, k, selection.agents[k], InputOf(selection.agents[k], selection)))
  }

  function CallsOf(planned: Planned): seq<Effect> {
    if planned.plan.Some? then [Preview(planned.place, planned.agent.id, planned.input)] else []
  }

  function Previews(planned: seq<Planned>): seq<Effect> {
    if planned == [] then [] else Previews(planned[..|planned| - 1]) + CallsOf(planned[|planned| - 1])
  }

  predicate Changing(planned: seq<Planned>) {
    exists p :: p in planned && p.Changes()
  }

  /** `/^y(es)?$/i` on the trimmed answer. */
  predicate Yes(text: string) {
    var t := Trim(text);
    (|t| == 1 || (|t| == 3 && t[1] in "eE" && t[2] in "sS")) && t[0] in "yY"
  }

  datatype Ran = Ran(outcome: Outcome, state: State, trace: seq<Effect>)

  /** The wiring loop so far; it threw when a call was lost. */
  datatype Wirings = Wirings(state: State, trace: seq<Effect>, entries: seq<Entry>, threw: bool)

  /** One agent of the wiring loop: the daemon's error leaves the others to be wired. */
  function WireOne(done: Wirings, p: Planned, luck: Luck): Wirings {
    if done.threw then done
    else if !p.Changes() then done.(entries := done.entries + [Entry(p.agent.id, p.input, Unchanged)])
    else
      var wire := Wire(p.place, p.agent.id, p.input, p.plan.value);
      var next := done.(state := StateAfter(done.state, wire, luck), trace := done.trace + [wire]);
      match ReplyTo(done.state, wire, luck)
      case Accepted => next.(entries := done.entries + [Entry(p.agent.id, p.input, Wired)])
      case Refused => next.(entries := done.entries + [Entry(p.agent.id, p.input, Failed)])
      case Lost => next.(threw := true)
  }

  function WireAll(state: State, planned: seq<Planned>, luck: Luck): Wirings {
    if planned == [] then Wirings(state, [], [], false)
    else WireOne(WireAll(state, planned[..|planned| - 1], luck), planned[|planned| - 1], luck)
  }

  /** The question, when there is something to write and `--yes` was not given. */
  function Asks(planned: seq<Planned>, answers: Answers, person: Option<Person>): seq<Effect> {
    if Changing(planned) && !answers.yes && person.Some? then [Confirm(person.value.confirmation)] else []
  }

  predicate MayWire(planned: seq<Planned>, answers: Answers, person: Option<Person>) {
    Changing(planned) ==> answers.yes || (person.Some? && Yes(person.value.confirmation))
  }

  function PlanAndWire(state: State, result: Result, selection: Selection, answers: Answers,
                       person: Option<Person>, luck: Luck): Ran
  {
    var planned := Planning(state, selection);
    var calls := Previews(planned);
    var n := FirstFailing(calls, Failing(luck));
    if n < |calls| then Ran(Threw, state, calls[..n + 1])
    else
      var before := calls + [Show(planned)] + Asks(planned, answers, person);
      if MayWire(planned, answers, person) then
        var wired := WireAll(state, planned, luck);
        Ran(if wired.threw then Threw else Done(result.(agents := wired.entries)), wired.state, before + wired.trace)
      else Ran(Declined, state, before)
  }

  function WireAgents(state: State, result: Result, models: seq<string>, answers: Answers,
                      person: Option<Person>, luck: Luck): Ran
  {
    match luck.lists
    case Unreachable => Ran(Threw, state, [])
    case Unsupported => Ran(Done(result), state, [])
    case Listed =>
      match Select(state, models, answers, person)
      case Halt(outcome) => Ran(outcome, state, [])
      case Go(selection) =>
        if selection.agents == [] then Ran(Done(result), state, [])
        else PlanAndWire(state, result, selection, answers, person, luck)
  }

  function ModelsOf(state: State, provider: string): seq<string> {
    if provider in state.providers then state.providers[provider].models else []
  }

  function ResultOf(d: Decision, models: nat, refreshFailed: bool): Result {
    Result(d.preset.id, d.existing.None?, d.moveTo.Some?,
           d.existing.Some? && d.credential.Some? && d.existing.value.keys != [], models, refreshFailed, [])
  }

  /** Whether the run ends at the refresh: the daemon's error alone does not end it. */
  predicate EndsAtRefresh(refresh: Effect, luck: Luck) {
    refresh in luck.lost || (refresh in luck.refused && !luck.rereads)
  }

  function AfterWrites(state: State, d: Decision, answers: Answers, person: Option<Person>, luck: Luck): Ran {
    var refresh := Refresh(d.preset.id, luck.models);
    var next := StateAfter(state, refresh, luck);
    if EndsAtRefresh(refresh, luck) then Ran(Threw, next, [refresh])
    else
      var models := ModelsOf(next, d.preset.id);
      var ran := WireAgents(next, ResultOf(d, |models|, refresh in luck.refused), models, answers, person, luck);
      ran.(trace := [refresh] + ran.trace)
  }

  /** One run of the wizard, as a function of the daemon's state, the answers and what goes on beside it. */
  function Run(state: State, answers: Answers, person: Option<Person>, luck: Luck): Ran {
    match Decide(state, answers, person, luck)
    case Halt(outcome) => Ran(outcome, state, [])
    case Go(d) =>
      var writes := Writes(d);
      var n := FirstFailing(writes, Failing(luck));
      if n < |writes| then Ran(Threw, StateAfter(ApplyAll(state, writes[..n]), writes[n], luck), writes[..n + 1])
      else
        var ran := AfterWrites(ApplyAll(state, writes), d, answers, person, luck);
        ran.(trace := writes + ran.trace)
  }

  // ---------- The wizard as it runs ----------

  /** The daemon a run talks to, and the run's effects so far. */
  class Session {
    var state: State
    var trace: seq<Effect>
    const luck: Luck

    constructor (state: State, luck: Luck)
      ensures this.state == state && trace == [] && this.luck == luck
    {
      this.state, trace, this.luck := state, [], luck;
    }

    method Call(effect: Effect) returns (reply: Reply)
      modifies this
      ensures reply == ReplyTo(old(state), effect, luck)
      ensures state == StateAfter(old(state), effect, luck)
      ensures reply.Lost? <==> effect in luck.lost
      ensures reply.Accepted? ==> effect !in luck.refused
      ensures reply.Accepted? && effect.Wire? ==> effect.confirmed == PlanOf(old(state), effect.agent, effect.input)
      ensures reply.Accepted? ==> state == Apply(old(state), effect)
      ensures reply.Refused? ==> state == old(state)
      ensures reply.Lost? && effect !in luck.landed ==> state == old(state)
      ensures reply.Lost? && effect in luck.landed && !effect.Wire? ==> state == Apply(old(state), effect)
      ensures reply.Lost? && effect in luck.landed && effect.Wire? ==>
                state == if effect.confirmed == PlanOf(old(state), effect.agent, effect.input)
                         then Apply(old(state), effect) else old(state)
      ensures trace == old(trace) + [effect]
    {
      reply := ReplyTo(state, effect, luck);
      if reply.Accepted? || (reply.Lost? && effect in luck.landed && Accepts(state, effect)) {
        state := Apply(state, effect);
      }
      trace := trace + [effect];
    }

    method Say(effect: Effect)
      modifies this
      ensures state == old(state) && trace == old(trace) + [effect]
    {
      trace := trace + [effect];
    }
  }

  /** Writes, call by call: one that is not accepted is the first failing one. */
  lemma WritesStep(state: State, writes: seq<Effect>, luck: Luck)
    requires |writes| <= 2 && forall e :: e in writes ==> !e.Wire?
    ensures var n := FirstFailing(writes, Failing(luck));
            && (writes == [] ==> n == 0 && ApplyAll(state, writes) == state)
            && (writes != [] ==> ApplyAll(state, writes[..0]) == state
                                 && (ReplyTo(state, writes[0], luck).Accepted? <==> n > 0))
            && (|writes| == 1 && n == 1 ==> ApplyAll(state, writes) == StateAfter(state, writes[0], luck))
            && (|writes| == 2 && n > 0 ==>
                  var next := StateAfter(state, writes[0], luck);
                  && ApplyAll(state, writes[..1]) == next && (ReplyTo(next, writes[1], luck).Accepted? <==> n == 2)
                  && (n == 2 ==> ApplyAll(state, writes) == StateAfter(next, writes[1], luck)))
  {
    hide Apply;
    if writes != [] {
      assert writes[0] in writes && writes[..1] == [writes[0]] && writes[..1][..0] == [];
      if |writes| == 2 {
        assert writes[1] in writes && writes[..|writes| - 1] == writes[..1];
      }
    }
  }

  /** Adds the provider, or moves and completes the one that is here. */
  method Provide(session: Session, d: Decision) returns (ok: bool)
    modifies session
    ensures var writes, state := Writes(d), old(session.state);
            var n := FirstFailing(writes, Failing(session.luck));
            && ok == (n == |writes|)
            && session.state == (if ok then ApplyAll(state, writes)
                                 else StateAfter(ApplyAll(state, writes[..n]), writes[n], session.luck))
            && session.trace == old(session.trace) + (if ok then writes else writes[..n + 1])
  {
    hide Apply, ApplyAll, FirstFailing, StateAfter, ReplyTo;
    ghost var writes, state := Writes(d), session.state;
    WritesStep(state, writes, session.luck);
    var reply := Accepted;
    if d.existing.None? {
      reply := session.Call(Create(d.preset, d.region, d.plan, d.endpoints, d.credential));
      return reply.Accepted?;
    }
    if d.moveTo.Some? {
      reply := session.Call(Move(d.preset.id, d.moveTo.value));
      if !reply.Accepted? { return false; }
    }
    if d.credential.Some? && d.existing.value.keys == [] {
      reply := session.Call(AddKey(d.preset.id, d.credential.value));
    }
    return reply.Accepted?;
  }

  lemma PreviewsOfNone()
    ensures Previews([]) == []
  {
  }

  lemma {:induction false} PreviewsExtend(all: seq<Planned>, k: nat)
    requires k < |all|
    ensures all[..k + 1] == all[..k] + [all[k]] && Previews(all[..k + 1]) == Previews(all[..k]) + CallsOf(all[k])
    ensures Previews(all[..k + 1]) <= Previews(all)
    decreases |all|
  {
    var next := all[..k + 1];
    assert next[..|next| - 1] == all[..k];
    if k + 1 < |all| {
      var shorter := all[..|all| - 1];
      PreviewsExtend(shorter, k);
      assert shorter[..k + 1] == next;
    } else {
      assert next == all;
    }
  }

  lemma FailsAt(calls: seq<Effect>, n: nat, failing: set<Effect>)
    requires n < |calls| && calls[n] in failing && forall call :: call in calls[..n] ==> call !in failing
    ensures FirstFailing(calls, failing) == n
  {
    forall k: nat | k < n ensures calls[k] !in failing {
      assert calls[k] in calls[..n];
    }
  }

  /** Where the previews stop when agent `k`'s fails. */
  lemma PreviewsStop(all: seq<Planned>, k: nat, failing: set<Effect>)
    requires k < |all| && all[k].plan.Some? && CallsOf(all[k])[0] in failing
    requires forall call :: call in Previews(all[..k]) ==> call !in failing
    ensures var calls := Previews(all); var n := FirstFailing(calls, failing);
            n < |calls| && calls[..n + 1] == Previews(all[..k]) + CallsOf(all[k])
  {
    hide Previews;
    PreviewsExtend(all, k);
    var calls, n := Previews(all), |Previews(all[..k])|;
    assert calls[..n + 1] == Previews(all[..k]) + CallsOf(all[k]);
    assert calls[..n] == Previews(all[..k]) && calls[n] == CallsOf(all[k])[0];
    FailsAt(calls, n, failing);
  }

  /** The previews of the selected agents: a call for each that is not wired this way already. */
  method PlanEach(session: Session, selection: Selection) returns (ok: bool, planned: seq<Planned>)
    modifies session
    ensures session.state == old(session.state)
    ensures var all := Planning(session.state, selection);
            var calls, n := Previews(all), FirstFailing(Previews(all), Failing(session.luck));
            && ok == (n == |calls|)
            && (ok ==> planned == all)
            && session.trace == old(session.trace) + (if ok then calls else calls[..n + 1])
  {
    hide Previews, SameWiring, InputOf, FirstFailing, WiringOf, Rewired;
    planned := [];
    ghost var all := Planning(session.state, selection);
    PreviewsOfNone();
    for k := 0 to |selection.agents|
      invariant session.state == old(session.state)
      invariant planned == all[..k]
      invariant session.trace == old(session.trace) + Previews(planned)
      invariant forall call :: call in Previews(planned) ==> call !in Failing(session.luck)
    {
      var agent := selection.agents[k];
      var p := PlannedFor(session.state, k, agent, InputOf(agent, selection));
      PreviewsExtend(all, k);
      if p.plan.Some? {
        var reply := session.Call(Preview(k, agent.id, p.input));
        if !reply.Accepted? {
          PreviewsStop(all, k, Failing(session.luck));
          ok := false;
          return;
        }
      }
      planned := planned + [p];
    }
    assert planned == all;
    ok := true;
  }

  lemma {:induction false} StaysThrown(state: State, planned: seq<Planned>, n: nat, luck: Luck)
    requires n <= |planned| && WireAll(state, planned[..n], luck).threw
    ensures WireAll(state, planned, luck) == WireAll(state, planned[..n], luck)
    decreases |planned|
  {
    if n == |planned| {
      assert planned[..n] == planned;
    } else {
      var front := planned[..|planned| - 1];
      assert front[..n] == planned[..n];
      StaysThrown(state, front, n, luck);
    }
  }

  /** The wiring: an agent whose call is refused leaves the others to be wired; a lost call ends it. */
  method WireEach(session: Session, planned: seq<Planned>) returns (entries: seq<Entry>, threw: bool)
    modifies session
    ensures var wired := WireAll(old(session.state), planned, session.luck);
            && session.state == wired.state && threw == wired.threw && entries == wired.entries
            && session.trace == old(session.trace) + wired.trace
  {
    entries, threw := [], false;
    for k := 0 to |planned|
      invariant var wired := WireAll(old(session.state), planned[..k], session.luck);
                && session.state == wired.state && !wired.threw && entries == wired.entries
                && session.trace == old(session.trace) + wired.trace
    {
      var p := planned[k];
      var next := planned[..k + 1];
      assert next[..|next| - 1] == planned[..k];
      if !p.Changes() {
        entries := entries + [Entry(p.agent.id, p.input, Unchanged)];
      } else {
        var reply := session.Call(Wire(p.place, p.agent.id, p.input, p.plan.value));
        if reply.Lost? {
          StaysThrown(old(session.state), planned, k + 1, session.luck);
          threw := true;
          return;
        }
        entries := entries + [Entry(p.agent.id, p.input, if reply.Accepted? then Wired else Failed)];
      }
    }
    assert planned[..|planned|] == planned;
  }

  lemma RefreshReplies(state: State, refresh: Effect, luck: Luck)
    requires refresh.Refresh?
    ensures ReplyTo(state, refresh, luck).Lost? <==> refresh in luck.lost
    ensures ReplyTo(state, refresh, luck).Refused? <==> refresh in luck.refused && refresh !in luck.lost
  {
  }

  /** The steps of a run after the models: selection, preview, confirmation and wiring. */
  method WireChosen(session: Session, result: Result, models: seq<string>, answers: Answers, person: Option<Person>)
    returns (outcome: Outcome)
    modifies session
    ensures var ran := WireAgents(old(session.state), result, models, answers, person, session.luck);
            && outcome == ran.outcome && session.state == ran.state
            && session.trace == old(session.trace) + ran.trace
  {
    hide Planning, Select, StateAfter, ReplyTo, FirstFailing, Previews, WireAll;
    match session.luck.lists {
      case Unreachable => return Threw;
      case Unsupported => return Done(result);
      case Listed =>
    }
    var selected := Select(session.state, models, answers, person);
    if selected.Halt? {
      return selected.outcome;
    }
    if selected.value.agents == [] {
      return Done(result);
    }
    var ok, planned := PlanEach(session, selected.value);
    if !ok {
      return Threw;
    }
    session.Say(Show(planned));
    if Changing(planned) && !answers.yes {
      if person.None? {
        return Declined;
      }
      session.Say(Confirm(person.value.confirmation));
      if !Yes(person.value.confirmation) {
        return Declined;
      }
    }
    var entries, threw := WireEach(session, planned);
    outcome := if threw then Threw else Done(result.(agents := entries));
  }

  /** `runInit`. */
  method RunInit(session: Session, answers: Answers, person: Option<Person>) returns (outcome: Outcome)
    modifies session
    ensures var ran := Run(old(session.state), answers, person, session.luck);
            && outcome == ran.outcome && session.state == ran.state
            && session.trace == old(session.trace) + ran.trace
  {
    hide Decide, Planning, Select, StateAfter, ReplyTo, ApplyAll, FirstFailing, Previews, WireAll, Writes, WireAgents;
    var decided := Decide(session.state, answers, person, session.luck);
    if decided.Halt? {
      return decided.outcome;
    }
    var d := decided.value;
    var ok := Provide(session, d);
    if !ok {
      return Threw;
    }
    ghost var provided := session.state;
    assert Writes(d)[..|Writes(d)|] == Writes(d);
    assert session.trace == old(session.trace) + Writes(d);
    var refresh := Refresh(d.preset.id, session.luck.models);
    var reply := session.Call(refresh);
    RefreshReplies(provided, refresh, session.luck);
    if reply.Lost? || (reply.Refused? && !session.luck.rereads) {
      return Threw;
    }
    var models := ModelsOf(session.state, d.preset.id);
    outcome := WireChosen(session, ResultOf(d, |models|, reply.Refused?), models, answers, person);
  }
}
