/** What a run of the first-run wizard writes of the provider: packages/cli/src/init.ts, `runInit`. */
module FirstRunProvider {
  import opened FirstRun
  import opened FirstRunContents
  import opened FirstRunLaws
  import opened Optional

  // ---------- The endpoints ----------

  lemma {:induction false} FindIsFirst<T>(items: seq<T>, matches: T -> bool, k: nat)
    requires k < |items| && matches(items[k]) && forall j :: 0 <= j < k ==> !matches(items[j])
    ensures Find(items, matches) == Some(items[k])
  {
    if k > 0 {
      FindIsFirst(items[1..], matches, k - 1);
    }
  }

  /** The option of this id, or the first one when no id is given. */
  predicate IsPicked(options: Option<seq<Choice>>, id: Option<string>, k: nat) {
    && options.Some? && k < |options.value|
    && (if id.None? then k == 0
        else options.value[k].id == id.value && forall j :: 0 <= j < k ==> options.value[j].id != id.value)
  }

  lemma PickedIs(options: Option<seq<Choice>>, id: Option<string>, k: nat)
    requires IsPicked(options, id, k)
    ensures Pick(options, id) == Some(options.value[k])
  {
    if id.Some? {
      FindIsFirst(options.value, (c: Choice) => c.id == id.value, k);
    }
  }

  lemma {:induction false} FirstMatch(options: seq<Choice>, id: string) returns (k: nat)
    requires exists c :: c in options && c.id == id
    ensures k < |options| && options[k].id == id && forall j :: 0 <= j < k ==> options[j].id != id
  {
    if options[0].id == id {
      k := 0;
    } else {
      var c :| c in options && c.id == id;
      assert c in options[1..];
      k := FirstMatch(options[1..], id);
      k := k + 1;
    }
  }

  /** Something is picked exactly when there is an option of the id, or any option without one. */
  lemma NothingPicked(options: Option<seq<Choice>>, id: Option<string>)
    ensures Pick(options, id).None? <==> forall k: nat :: !IsPicked(options, id, k)
  {
    if Pick(options, id).Some? {
      if id.None? {
        assert IsPicked(options, id, 0);
      } else {
        FindIs(options.value, (c: Choice) => c.id == id.value);
        var k := FirstMatch(options.value, id.value);
        assert IsPicked(options, id, k);
      }
    }
    forall k: nat | IsPicked(options, id, k) ensures Pick(options, id).Some? {
      PickedIs(options, id, k);
    }
  }

  /** The plan's endpoints, or else the region's, or else the preset's own. */
  ghost predicate AreEndpoints(preset: Preset, region: Option<string>, plan: Option<string>,
                               endpoints: map<string, Endpoint>)
  {
    if exists k: nat :: IsPicked(preset.plans, plan, k) && preset.plans.value[k].endpoints.Some? then
      forall k: nat :: IsPicked(preset.plans, plan, k) ==> preset.plans.value[k].endpoints == Some(endpoints)
    else if exists k: nat :: IsPicked(preset.regions, region, k) && preset.regions.value[k].endpoints.Some? then
      forall k: nat :: IsPicked(preset.regions, region, k) ==> preset.regions.value[k].endpoints == Some(endpoints)
    else endpoints == preset.endpoints
  }

  lemma ChosenIs(preset: Preset, region: Option<string>, plan: Option<string>)
    ensures AreEndpoints(preset, region, plan, Chosen(preset, region, plan))
  {
    hide Pick;
    NothingPicked(preset.plans, plan);
    NothingPicked(preset.regions, region);
    forall k: nat | IsPicked(preset.plans, plan, k)
      ensures k < |preset.plans.Or([])| && Pick(preset.plans, plan) == Some(preset.plans.value[k])
    {
      PickedIs(preset.plans, plan, k);
    }
    forall k: nat | IsPicked(preset.regions, region, k)
      ensures k < |preset.regions.Or([])| && Pick(preset.regions, region) == Some(preset.regions.value[k])
    {
      PickedIs(preset.regions, region, k);
    }
  }

  /** `bare` is the text without the slashes at its end. */
  predicate IsBare(bare: string, text: string) {
    && bare <= text && (forall i :: |bare| <= i < |text| ==> text[i] == '/')
    && (bare != "" ==> bare[|bare| - 1] != '/')
  }

  lemma {:induction false} UnslashedIs(text: string)
    ensures IsBare(Unslashed(text), text)
  {
    if text != "" && text[|text| - 1] == '/' {
      UnslashedIs(text[..|text| - 1]);
    }
  }

  /** The same protocols, each at the base's origin with both paths. */
  ghost predicate AreRebased(urls: map<string, string>, endpoints: map<string, Endpoint>, base: Base)
    requires base.Base?
  {
    && urls.Keys == endpoints.Keys
    && forall protocol :: protocol in urls ==>
         exists front, path :: IsBare(front, base.pathname) && IsBare(path, endpoints[protocol].pathname)
                               && urls[protocol] == base.origin + front + path
  }

  lemma RebasedAre(endpoints: map<string, Endpoint>, base: Base)
    requires base.Base?
    ensures AreRebased(Rebased(endpoints, base), endpoints, base)
  {
    hide IsBare, Unslashed;
    forall protocol | protocol in endpoints
      ensures exists front, path :: IsBare(front, base.pathname) && IsBare(path, endpoints[protocol].pathname)
                && Rebased(endpoints, base)[protocol] == base.origin + front + path
    {
      UnslashedIs(base.pathname);
      UnslashedIs(endpoints[protocol].pathname);
    }
  }

  /** What differs: the rebased endpoints that are not here, but for slashes at the end of what is here. */
  ghost predicate Differs(moved: map<string, string>, asked: map<string, string>, here: map<string, string>) {
    && (forall protocol :: protocol in moved <==>
          protocol in asked && (protocol in here ==> !IsBare(asked[protocol], here[protocol])))
    && forall protocol :: protocol in moved ==> moved[protocol] == asked[protocol]
  }

  lemma BareIsOne(a: string, b: string, text: string)
    requires IsBare(a, text) && IsBare(b, text)
    ensures a == b
  {
    assert a == text[..|a|] && b == text[..|b|];
    assert |a| == |b|;
  }

  lemma BareIs(bare: string, text: string)
    requires Unslashed(bare) == bare
    ensures IsBare(bare, text) <==> bare == Unslashed(text)
  {
    UnslashedIs(text);
    UnslashedIs(bare);
    if IsBare(bare, text) {
      BareIsOne(bare, Unslashed(text), text);
    }
  }

  lemma MovedDiffers(endpoints: map<string, Endpoint>, base: Base, here: map<string, string>)
    requires base.Base?
    ensures Differs(Moved(endpoints, Some(base), here), Rebased(endpoints, base), here)
  {
    hide IsBare, Unslashed;
    var asked := Rebased(endpoints, base);
    forall protocol | protocol in endpoints && protocol in here
      ensures IsBare(asked[protocol], here[protocol]) <==> asked[protocol] == Unslashed(here[protocol])
    {
      RebasedEnds(endpoints, base, protocol);
      BareIs(asked[protocol], here[protocol]);
    }
  }

  // ---------- What is decided ----------

  /** A given region or plan, or the person's pick when the preset has some to ask about; one it has. */
  ghost predicate IsOption(picked: Option<string>, given: Option<string>, asked: Option<string>,
                           options: Option<seq<Choice>>)
  {
    && picked == (if given.Some? then given else if options.Some? then asked else None)
    && (picked.Some? ==> options.Some? && exists c :: c in options.value && c.id == picked.value)
  }

  /** The base URL: given, or asked for when a new provider runs on a machine of the person's. */
  function BaseFor(preset: Preset, here: bool, answers: Answers, person: Option<Person>): Option<Base> {
    if answers.base.Some? || here || person.None? then answers.base
    else if preset.userEndpoint || preset.local then person.value.base
    else None
  }

  /** The key: given, or what the person types when one can be used. */
  function KeyFor(preset: Preset, keys: seq<string>, answers: Answers, person: Option<Person>): Option<string> {
    if answers.credential.Some? then answers.credential
    else if preset.takesKey && keys == [] && person.Some? && person.value.secret != "" then Some(person.value.secret)
    else None
  }

  function ProviderHere(state: State, id: string): Option<Provider> {
    if id in state.providers then Some(state.providers[id]) else None
  }

  /** A provider is added: the preset is known, no provider has its id, and the options are the preset's. */
  ghost predicate IsAdded(state: State, preset: Preset, region: Option<string>, plan: Option<string>,
                          endpoints: Option<map<string, string>>, credential: Option<string>,
                          answers: Answers, person: Option<Person>)
  {
    && PresetById(state.presets, ProviderId(answers, person)) == Some(preset) && preset.id !in state.providers
    && IsOption(region, answers.region, if person.Some? then Some(person.value.region) else None, preset.regions)
    && IsOption(plan, answers.plan, if person.Some? then Some(person.value.plan) else None, preset.plans)
    && credential == KeyFor(preset, [], answers, person)
    && (preset.takesKey && !preset.takesNone ==> credential.Some?)
    && var base := BaseFor(preset, false, answers, person);
    && (endpoints.Some? <==> base.Some?) && (preset.userEndpoint ==> base.Some?)
    && (base.Some? ==> base.value.Base? && exists own :: AreEndpoints(preset, region, plan, own)
                                                         && AreRebased(endpoints.value, own, base.value))
  }

  /** Its endpoints are moved: by a person who was shown exactly these differences and updates them, with
      no other option that differs. */
  ghost predicate IsMoved(state: State, id: string, to: map<string, string>, answers: Answers, person: Option<Person>) {
    && id == ProviderId(answers, person) && id in state.providers && to != map[]
    && person.Some? && person.value.difference == Update && answers.base.Some? && answers.base.value.Base?
    && PresetById(state.presets, id).Some?
    && var preset, provider := PresetById(state.presets, id).value, state.providers[id];
    && provider.preset == Some(id)
    && (answers.region.Some? ==> provider.region == answers.region)
    && (answers.plan.Some? ==> provider.plan == answers.plan)
    && exists own, asked :: AreEndpoints(preset, answers.region, answers.plan, own)
         && AreRebased(asked, own, answers.base.value) && Differs(to, asked, provider.endpoints)
  }

  /** A key is added to a provider that is here without one. */
  ghost predicate IsKeyed(state: State, id: string, value: string, answers: Answers, person: Option<Person>) {
    && id == ProviderId(answers, person) && id in state.providers && state.providers[id].keys == []
    && PresetById(state.presets, id).Some?
    && KeyFor(PresetById(state.presets, id).value, [], answers, person) == Some(value)
  }

  /** A call about the provider is as it was answered. */
  ghost predicate IsAsAnswered(e: Effect, state: State, answers: Answers, person: Option<Person>) {
    match e
    case Create(preset, region, plan, endpoints, credential) =>
      IsAdded(state, preset, region, plan, endpoints, credential, answers, person)
    case Move(id, to) => IsMoved(state, id, to, answers, person)
    case AddKey(id, value) => IsKeyed(state, id, value, answers, person)
    case Refresh(id, _) => id == ProviderId(answers, person) && PresetById(state.presets, id).Some?
    case _ => true
  }

  lemma PresetFound(state: State, answers: Answers, person: Option<Person>)
    requires PresetOf(state, answers, person).Go?
    ensures PresetById(state.presets, ProviderId(answers, person)) == Some(PresetOf(state, answers, person).value)
    ensures PresetOf(state, answers, person).value.id == ProviderId(answers, person)
  {
    PresetIs(state, answers, person);
  }

  /** Each part of a decision, by the function that decides it. */
  lemma DecidedBy(state: State, answers: Answers, person: Option<Person>, luck: Luck)
    requires Decide(state, answers, person, luck).Go?
    ensures var d := Decide(state, answers, person, luck).value;
            var asking := if d.existing.Some? then None else person;
            var base := BaseOf(d.preset, d.existing.Some?, answers.base, asking);
            && PresetOf(state, answers, person) == Go(d.preset)
            && d.existing == ProviderHere(state, d.preset.id)
            && Asked(answers.region, if asking.Some? then Some(asking.value.region) else None, d.preset.regions)
               == Go(d.region)
            && Asked(answers.plan, if asking.Some? then Some(asking.value.plan) else None, d.preset.plans) == Go(d.plan)
            && Known(d.preset.regions, d.region) && Known(d.preset.plans, d.plan)
            && base.Go?
            && (if d.existing.Some? then
                  MoveOf(d.existing.value, d.preset, Chosen(d.preset, d.region, d.plan), base.value, answers, person)
                  == Go(d.moveTo)
                else d.moveTo == None)
            && KeyOf(d.preset, d.existing, answers, person) == Go(d.credential)
            && EndpointsOf(Chosen(d.preset, d.region, d.plan), base.value, d.existing.Some?) == Go(d.endpoints)
  {
    hide PresetOf, Asked, Known, Chosen, BaseOf, MoveOf, Checked, KeyOf, EndpointsOf;
  }

  lemma OptionIs(given: Option<string>, asked: Option<string>, options: Option<seq<Choice>>, picked: Option<string>)
    requires FirstRun.Asked(given, asked, options) == Go(picked) && Known(options, picked)
    ensures IsOption(picked, given, asked, options)
  {
  }

  lemma BaseIs(preset: Preset, here: bool, answers: Answers, person: Option<Person>)
    requires BaseOf(preset, here, answers.base, if here then None else person).Go?
    ensures var base := BaseOf(preset, here, answers.base, if here then None else person).value;
            base == BaseFor(preset, here, answers, person) && (preset.userEndpoint && !here ==> base.Some?)
  {
  }

  lemma CreatesAsAnswered(state: State, d: Decision, answers: Answers, person: Option<Person>, luck: Luck)
    requires Decide(state, answers, person, luck) == Go(d) && d.existing.None?
    ensures IsAdded(state, d.preset, d.region, d.plan, d.endpoints, d.credential, answers, person)
  {
    hide Decide, Chosen, Rebased, AreEndpoints, AreRebased, PresetById, PresetOf, ProviderId, BaseFor, BaseOf, Asked,
         IsOption, Known;
    DecidedBy(state, answers, person, luck);
    PresetFound(state, answers, person);
    var asked := if person.Some? then Some(person.value.region) else None;
    OptionIs(answers.region, asked, d.preset.regions, d.region);
    OptionIs(answers.plan, if person.Some? then Some(person.value.plan) else None, d.preset.plans, d.plan);
    BaseIs(d.preset, false, answers, person);
    ChosenIs(d.preset, d.region, d.plan);
    var base := BaseFor(d.preset, false, answers, person);
    if base.Some? && base.value.Base? {
      RebasedAre(Chosen(d.preset, d.region, d.plan), base.value);
    }
  }

  lemma MovesAsAnswered(state: State, d: Decision, answers: Answers, person: Option<Person>, luck: Luck)
    requires Decide(state, answers, person, luck) == Go(d) && d.moveTo.Some?
    ensures IsMoved(state, d.preset.id, d.moveTo.value, answers, person)
  {
    hide Decide, Chosen, Rebased, Moved, AreEndpoints, AreRebased, Differs, PresetById, PresetOf, ProviderId, KeyOf,
        Known;
    DecidedBy(state, answers, person, luck);
    PresetFound(state, answers, person);
    assert d.existing.Some? && d.region == answers.region && d.plan == answers.plan;
    var own := Chosen(d.preset, d.region, d.plan);
    MovedOfNone(own, d.existing.value.endpoints);
    assert answers.base.Some? && answers.base.value.Base?;
    ChosenIs(d.preset, d.region, d.plan);
    RebasedAre(own, answers.base.value);
    MovedDiffers(own, answers.base.value, d.existing.value.endpoints);
  }

  lemma EndpointsAreOne(preset: Preset, region: Option<string>, plan: Option<string>, own: map<string, Endpoint>)
    requires AreEndpoints(preset, region, plan, own)
    ensures own == Chosen(preset, region, plan)
  {
    hide Chosen;
    ChosenIs(preset, region, plan);
  }

  lemma RebasedIsOne(endpoints: map<string, Endpoint>, base: Base, urls: map<string, string>)
    requires base.Base? && AreRebased(urls, endpoints, base)
    ensures urls == Rebased(endpoints, base)
  {
    hide IsBare;
    RebasedAre(endpoints, base);
    forall protocol | protocol in urls ensures urls[protocol] == Rebased(endpoints, base)[protocol] {
      var front, path :| IsBare(front, base.pathname) && IsBare(path, endpoints[protocol].pathname)
          && urls[protocol] == base.origin + front + path;
      UnslashedIs(base.pathname);
      UnslashedIs(endpoints[protocol].pathname);
      BareIsOne(front, Unslashed(base.pathname), base.pathname);
      BareIsOne(path, Unslashed(endpoints[protocol].pathname), endpoints[protocol].pathname);
    }
  }

  lemma OneMove(preset: Preset, region: Option<string>, plan: Option<string>, own: map<string, Endpoint>, base: Base,
                asked: map<string, string>, here: map<string, string>, to: map<string, string>)
    requires base.Base? && AreEndpoints(preset, region, plan, own) && AreRebased(asked, own, base)
    requires Differs(to, asked, here)
    ensures to == Moved(Chosen(preset, region, plan), Some(base), here)
  {
    hide AreEndpoints, AreRebased, IsBare, Chosen, Rebased, Moved;
    EndpointsAreOne(preset, region, plan, own);
    RebasedIsOne(own, base, asked);
    MovedDiffers(own, base, here);
    var moved := Moved(own, Some(base), here);
    assert forall protocol :: protocol in to <==> protocol in moved;
  }

  /** A provider that is here is moved exactly by such a move. */
  lemma MovedExactly(state: State, d: Decision, answers: Answers, person: Option<Person>, luck: Luck)
    requires Decide(state, answers, person, luck) == Go(d) && d.existing.Some?
    ensures forall id, to :: IsMoved(state, id, to, answers, person) <==> d.preset.id == id && d.moveTo == Some(to)
  {
    hide Decide, Chosen, Rebased, Moved, AreEndpoints, AreRebased, Differs, PresetById, PresetOf, ProviderId, KeyOf,
        Known;
    DecidedBy(state, answers, person, luck);
    PresetFound(state, answers, person);
    if d.moveTo.Some? {
      MovesAsAnswered(state, d, answers, person, luck);
    }
    forall id, to | IsMoved(state, id, to, answers, person) ensures d.preset.id == id && d.moveTo == Some(to) {
      var own, asked :| AreEndpoints(d.preset, answers.region, answers.plan, own)
          && AreRebased(asked, own, answers.base.value) && Differs(to, asked, d.existing.value.endpoints);
      OneMove(d.preset, answers.region, answers.plan, own, answers.base.value, asked, d.existing.value.endpoints, to);
    }
  }

  lemma KeysAsAnswered(state: State, d: Decision, answers: Answers, person: Option<Person>, luck: Luck)
    requires Decide(state, answers, person, luck) == Go(d) && d.existing.Some? && d.existing.value.keys == []
    ensures forall value :: d.credential == Some(value) <==> IsKeyed(state, d.preset.id, value, answers, person)
  {
    hide Decide, Chosen, PresetById, PresetOf, ProviderId, MoveOf, BaseOf, EndpointsOf;
    DecidedBy(state, answers, person, luck);
    PresetFound(state, answers, person);
  }

  lemma AddedExactly(state: State, d: Decision, answers: Answers, person: Option<Person>, luck: Luck)
    requires Decide(state, answers, person, luck) == Go(d)
    requires d.existing.None?
    ensures forall preset, region, plan, endpoints, credential ::
              IsAdded(state, preset, region, plan, endpoints, credential, answers, person) ==>
                Create(preset, region, plan, endpoints, credential)
                == Create(d.preset, d.region, d.plan, d.endpoints, d.credential)
  {
    hide Decide, PresetOf, PresetById, AreEndpoints, AreRebased, Chosen, Rebased, ProviderId, BaseFor, KeyFor, MoveOf,
         KeyOf, BaseOf;
    DecidedBy(state, answers, person, luck);
    PresetFound(state, answers, person);
    CreatesAsAnswered(state, d, answers, person, luck);
    forall preset, region, plan, endpoints, credential |
        IsAdded(state, preset, region, plan, endpoints, credential, answers, person)
      ensures endpoints == d.endpoints && region == d.region && plan == d.plan && credential == d.credential
    {
      var base := BaseFor(preset, false, answers, person);
      if base.Some? {
        var own :| AreEndpoints(preset, region, plan, own) && AreRebased(endpoints.value, own, base.value);
        var same :| AreEndpoints(preset, region, plan, same) && AreRebased(d.endpoints.value, same, base.value);
        EndpointsAreOne(preset, region, plan, own);
        EndpointsAreOne(preset, region, plan, same);
        RebasedIsOne(own, base.value, endpoints.value);
        RebasedIsOne(own, base.value, d.endpoints.value);
      }
    }
  }

  lemma NoneIsAdded(state: State, d: Decision, answers: Answers, person: Option<Person>, luck: Luck)
    requires Decide(state, answers, person, luck) == Go(d)
    ensures d.existing.Some? ==>
              forall preset, region, plan, endpoints, credential ::
                !IsAdded(state, preset, region, plan, endpoints, credential, answers, person)
    ensures d.existing.None? ==>
              && (forall id, to :: !IsMoved(state, id, to, answers, person))
              && (forall id, value :: !IsKeyed(state, id, value, answers, person))
    ensures d.existing.Some? && d.existing.value.keys != [] ==>
              forall id, value :: !IsKeyed(state, id, value, answers, person)
    ensures forall id, value :: IsKeyed(state, id, value, answers, person) ==> id == d.preset.id
  {
    hide Decide, PresetOf, PresetById, ProviderId, IsOption, KeyFor, BaseFor, AreEndpoints, AreRebased, Differs;
    DecidedBy(state, answers, person, luck);
    PresetFound(state, answers, person);
  }

  /** The writes of a decision are exactly the calls about the provider that were answered. */
  lemma WritesAreAnswered(state: State, d: Decision, answers: Answers, person: Option<Person>, luck: Luck)
    requires Decide(state, answers, person, luck) == Go(d)
    ensures forall e: Effect :: e.Create? || e.Move? || e.AddKey? ==>
              (e in Writes(d) <==> IsAsAnswered(e, state, answers, person))
  {
    hide Decide, IsAdded, IsMoved, IsKeyed;
    NoneIsAdded(state, d, answers, person, luck);
    if d.existing.None? {
      CreatesAsAnswered(state, d, answers, person, luck);
      AddedExactly(state, d, answers, person, luck);
    } else {
      MovedExactly(state, d, answers, person, luck);
      if d.existing.value.keys == [] {
        KeysAsAnswered(state, d, answers, person, luck);
      }
    }
  }

  lemma RestIsOfAgents(next: State, d: Decision, answers: Answers, person: Option<Person>, luck: Luck)
    ensures forall e :: e in Rest(next, d, answers, person, luck).trace ==>
              e.Preview? || e.Show? || e.Confirm? || e.Wire?
  {
    var models := ModelsOf(next, d.preset.id);
    var result := ResultOf(d, |models|, Refresh(d.preset.id, luck.models) in luck.refused);
    WireAgentsInOrder(next, result, models, answers, person, luck);
    hide WireAgents, ModelsOf;
  }

  /** Over every run: each call about the provider is as it was answered, and a run that comes to the
      models has made each such call that there is to make. */
  lemma ProviderAsAnswered(state: State, answers: Answers, person: Option<Person>, luck: Luck)
    ensures var trace := Run(state, answers, person, luck).trace;
            && (forall e :: e in trace ==> IsAsAnswered(e, state, answers, person))
            && ((exists e :: e in trace && e.Refresh?) ==>
                  forall e: Effect :: (e.Create? || e.Move? || e.AddKey?) && IsAsAnswered(e, state, answers, person) ==>
                    e in trace)
  {
    hide Run, Decide, Writes, Rest, IsAdded, IsMoved, IsKeyed, PresetById, ProviderId;
    RunIs(state, answers, person, luck);
    var decided := Decide(state, answers, person, luck);
    if decided.Go? {
      var d := decided.value;
      WritesAreAnswered(state, d, answers, person, luck);
      WritesAreNoWires(d);
      ProvidedKeeps(state, d, luck);
      DecidedPreset(state, answers, person, luck);
      PresetFound(state, answers, person);
      RestIsOfAgents(ProvidedBy(state, d, luck).state, d, answers, person, luck);
    }
  }

  // ---------- The provider afterwards ----------

  /** The id that is stored for a region or plan: the chosen one, or else the first option's. */
  ghost predicate IsStored(stored: Option<string>, options: Option<seq<Choice>>, picked: Option<string>) {
    if picked.Some? then stored == picked
    else if options.Some? && options.value != [] then stored == Some(options.value[0].id)
    else stored == None
  }

  /** A provider as it was sent: its preset, region, plan and key, and at each protocol the endpoint that
      was sent, or else the preset's. */
  ghost predicate IsAsSent(provider: Provider, created: Effect)
    requires created.Create?
  {
    && provider.preset == Some(created.preset.id)
    && IsStored(provider.region, created.preset.regions, created.region)
    && IsStored(provider.plan, created.preset.plans, created.plan)
    && provider.keys == (if created.credential.Some? then [created.credential.value] else [])
    && exists own: map<string, Endpoint> :: AreEndpoints(created.preset, created.region, created.plan, own)
         && forall protocol :: protocol in own || (created.endpoints.Some? && protocol in created.endpoints.value) ==>
              && protocol in provider.endpoints
              && provider.endpoints[protocol] ==
                   if created.endpoints.Some? && protocol in created.endpoints.value
                   then created.endpoints.value[protocol] else own[protocol].url
  }

  lemma StoredIs(options: Option<seq<Choice>>, picked: Option<string>)
    ensures IsStored(FirstRun.Recorded(options, picked), options, picked)
  {
  }

  lemma StoredAsSent(state: State, created: Effect)
    requires created.Create?
    ensures created.preset.id in Apply(state, created).providers
    ensures var provider := Apply(state, created).providers[created.preset.id];
            IsAsSent(provider, created) && provider.models == created.preset.models
  {
    hide Chosen, AreEndpoints, Recorded, IsStored;
    ChosenIs(created.preset, created.region, created.plan);
    StoredIs(created.preset.regions, created.region);
    StoredIs(created.preset.plans, created.plan);
  }

  /** The provider after its writes: as sent, or as it was but for the moved endpoints and the added key. */
  ghost predicate IsWritten(provider: Provider, before: Option<Provider>, trace: seq<Effect>) {
    if before.None? then exists e :: e in trace && e.Create? && IsAsSent(provider, e)
    else
      && provider.preset == before.value.preset && provider.region == before.value.region
      && provider.plan == before.value.plan
      && (forall e :: e in trace && e.Move? ==> provider.endpoints == before.value.endpoints + e.to)
      && (forall e :: e in trace && e.AddKey? ==> provider.keys == before.value.keys + [e.value])
      && ((forall e :: e in trace ==> !e.Move?) ==> provider.endpoints == before.value.endpoints)
      && ((forall e :: e in trace ==> !e.AddKey?) ==> provider.keys == before.value.keys)
  }

  lemma WrittenLonger(provider: Provider, before: Option<Provider>, writes: seq<Effect>, rest: seq<Effect>)
    requires IsWritten(provider, before, writes)
    requires forall e :: e in rest ==> !e.Create? && !e.Move? && !e.AddKey?
    ensures IsWritten(provider, before, writes + rest)
  {
    hide IsAsSent;
    assert forall e :: e in writes ==> e in writes + rest;
  }

  lemma ApplyWrites(state: State, writes: seq<Effect>)
    requires |writes| <= 2
    ensures ApplyAll(state, writes) ==
              if writes == [] then state
              else if |writes| == 1 then Apply(state, writes[0])
              else Apply(Apply(state, writes[0]), writes[1])
  {
    hide Apply;
    if writes != [] {
      assert writes[..|writes| - 1][..0] == [];
    }
  }

  /** What the writes leave: the provider written, its models as they were, and every other provider. */
  ghost predicate Stores(state: State, d: Decision, next: State) {
    && d.preset.id in next.providers
    && IsWritten(next.providers[d.preset.id], d.existing, Writes(d))
    && next.providers[d.preset.id].models == (if d.existing.Some? then d.existing.value.models else d.preset.models)
    && forall id :: id != d.preset.id ==> ProviderHere(next, id) == ProviderHere(state, id)
  }

  lemma CreateStores(state: State, d: Decision)
    requires d.existing.None?
    ensures Stores(state, d, ApplyAll(state, Writes(d)))
  {
    hide Chosen, IsAsSent, Recorded;
    ApplyWrites(state, Writes(d));
    StoredAsSent(state, Writes(d)[0]);
  }

  lemma MoveStores(state: State, id: string, to: map<string, string>)
    requires id in state.providers
    ensures Apply(state, Move(id, to)).providers ==
              state.providers[id := state.providers[id].(endpoints := state.providers[id].endpoints + to)]
  {
  }

  lemma AddKeyStores(state: State, id: string, value: string)
    requires id in state.providers
    ensures Apply(state, AddKey(id, value)).providers ==
              state.providers[id := state.providers[id].(keys := state.providers[id].keys + [value])]
  {
  }

  lemma UpdateStores(state: State, d: Decision)
    requires d.existing.Some? && d.existing == ProviderHere(state, d.preset.id)
    ensures Stores(state, d, ApplyAll(state, Writes(d)))
  {
    hide Apply, ApplyAll, IsAsSent;
    ApplyWrites(state, Writes(d));
    var next := state;
    if d.moveTo.Some? {
      MoveStores(state, d.preset.id, d.moveTo.value);
      next := Apply(state, Move(d.preset.id, d.moveTo.value));
      assert Writes(d)[0] in Writes(d);
    }
    if d.credential.Some? && d.existing.value.keys == [] {
      AddKeyStores(next, d.preset.id, d.credential.value);
      assert Writes(d)[|Writes(d)| - 1] in Writes(d);
    }
  }

  lemma RefreshStores(state: State, d: Decision, next: State, luck: Luck)
    requires Stores(state, d, next)
    ensures var refresh := Refresh(d.preset.id, luck.models);
            !EndsAtRefresh(refresh, luck) ==>
              var after := StateAfter(next, refresh, luck);
              && d.preset.id in after.providers
              && after.providers[d.preset.id] == next.providers[d.preset.id].(
                   models := if refresh in luck.refused then next.providers[d.preset.id].models else luck.models)
              && forall id :: id != d.preset.id ==> ProviderHere(after, id) == ProviderHere(state, id)
  {
    hide IsWritten, Writes;
  }

  /** What a result says of the provider. */
  ghost predicate ResultHolds(result: Result, state: State, after: State, trace: seq<Effect>, answers: Answers,
                              luck: Luck)
  {
    && result.provider in after.providers
    && (result.created <==> result.provider !in state.providers)
    && (result.updated <==> exists e :: e in trace && e.Move?)
    && (result.keyUnused <==>
          result.provider in state.providers && state.providers[result.provider].keys != [] && answers.credential.Some?)
    && result.models == |after.providers[result.provider].models|
    && (result.refreshFailed <==> exists e :: e in trace && e.Refresh? && e in luck.refused)
  }

  lemma WireAgentsResult(state: State, result: Result, models: seq<string>, answers: Answers, person: Option<Person>,
                         luck: Luck)
    requires result.agents == []
    ensures var ran := WireAgents(state, result, models, answers, person, luck);
            ran.outcome.Done? ==> ran.outcome.result.(agents := []) == result
  {
    hide Select, Planning, Previews, WireAll, MayWire, FirstFailing, Asks;
  }

  lemma RestKeeps(next: State, d: Decision, answers: Answers, person: Option<Person>, luck: Luck)
    ensures var rest := Rest(next, d, answers, person, luck);
            && rest.state.providers == next.providers
            && (rest.outcome.Done? ==>
                  rest.outcome.result.(agents := []) ==
                    ResultOf(d, |ModelsOf(next, d.preset.id)|, Refresh(d.preset.id, luck.models) in luck.refused))
  {
    hide WireAgents, ModelsOf;
    var models := ModelsOf(next, d.preset.id);
    var result := ResultOf(d, |models|, Refresh(d.preset.id, luck.models) in luck.refused);
    WireAgentsCarries(next, result, models, answers, person, luck);
    WireAgentsResult(next, result, models, answers, person, luck);
  }

  lemma KeyUnusedIs(state: State, d: Decision, answers: Answers, person: Option<Person>, luck: Luck)
    requires Decide(state, answers, person, luck) == Go(d)
    ensures d.existing.Some? && d.existing.value.keys != [] ==> d.credential == answers.credential
  {
    hide Decide, Chosen, PresetOf, MoveOf, BaseOf, EndpointsOf;
    DecidedBy(state, answers, person, luck);
  }

  lemma MoveIsWritten(d: Decision)
    ensures forall e :: e in Writes(d) ==> e.Create? || e.Move? || e.AddKey?
    ensures d.existing.Some? ==> (d.moveTo.Some? <==> exists e :: e in Writes(d) && e.Move?)
    ensures d.existing.None? ==> forall e :: e in Writes(d) ==> !e.Move?
  {
    if d.existing.Some? && d.moveTo.Some? {
      assert Writes(d)[0].Move?;
    }
  }

  /** Over every run that is done: the provider is as it was sent, or as it was but for a move and a key,
      with the models that were listed unless the refresh was refused; no other provider changed; and the
      result says so. */
  lemma ProviderAfterwards(state: State, answers: Answers, person: Option<Person>, luck: Luck)
    requires Run(state, answers, person, luck).outcome.Done?
    ensures var ran := Run(state, answers, person, luck);
            var result := ran.outcome.result; var id := ProviderId(answers, person);
            && result.provider == id && ResultHolds(result, state, ran.state, ran.trace, answers, luck)
            && (exists written: Provider ::
                  && IsWritten(written, ProviderHere(state, id), ran.trace)
                  && ran.state.providers[id] ==
                       written.(models := if result.refreshFailed then written.models else luck.models))
            && forall other :: other != id ==> ProviderHere(ran.state, other) == ProviderHere(state, other)
  {
    hide Run, Decide, Writes, Rest, ProviderId, IsWritten, ApplyAll, StateAfter, FirstFailing;
    RunIs(state, answers, person, luck);
    var d := Decide(state, answers, person, luck).value;
    DecidedBy(state, answers, person, luck);
    DecidedPreset(state, answers, person, luck);
    KeyUnusedIs(state, d, answers, person, luck);
    var next := ApplyAll(state, Writes(d));
    if d.existing.None? {
      CreateStores(state, d);
    } else {
      UpdateStores(state, d);
    }
    RefreshStores(state, d, next, luck);
    var provided := ProvidedBy(state, d, luck);
    RestKeeps(provided.state, d, answers, person, luck);
    RestIsOfAgents(provided.state, d, answers, person, luck);
    MoveIsWritten(d);
    var rest := Rest(provided.state, d, answers, person, luck);
    var ran := Run(state, answers, person, luck);
    var others := [Refresh(d.preset.id, luck.models)] + rest.trace;
    assert ran.trace == Writes(d) + others;
    WrittenLonger(next.providers[d.preset.id], ProviderHere(state, d.preset.id), Writes(d), others);
  }

  // ---------- A provider that is here and differs ----------

  /** The provider's preset, region and plan are those that were asked for. */
  predicate IsTheSame(provider: Provider, id: string, answers: Answers) {
    && provider.preset == Some(id)
    && (answers.region.Some? ==> provider.region == answers.region)
    && (answers.plan.Some? ==> provider.plan == answers.plan)
  }

  /** Nor are there endpoints to move. */
  ghost predicate IsThere(provider: Provider, preset: Preset, answers: Answers) {
    answers.base.Some? ==>
      && answers.base.value.Base?
      && forall own, asked ::
           (AreEndpoints(preset, answers.region, answers.plan, own) && AreRebased(asked, own, answers.base.value)) ==>
             Differs(map[], asked, provider.endpoints)
  }

  lemma NothingToMove(preset: Preset, answers: Answers, provider: Provider)
    requires answers.base.Some? && answers.base.value.Base?
    requires Moved(Chosen(preset, answers.region, answers.plan), answers.base, provider.endpoints) == map[]
    ensures IsThere(provider, preset, answers)
  {
    hide Moved, Differs, AreEndpoints, AreRebased;
    forall own, asked | AreEndpoints(preset, answers.region, answers.plan, own)
        && AreRebased(asked, own, answers.base.value)
      ensures Differs(map[], asked, provider.endpoints)
    {
      EndpointsAreOne(preset, answers.region, answers.plan, own);
      RebasedIsOne(own, answers.base.value, asked);
      MovedDiffers(own, answers.base.value, provider.endpoints);
    }
  }

  lemma NowhereAsked(provider: Provider, preset: Preset, answers: Answers)
    requires answers.base.None?
    ensures IsThere(provider, preset, answers)
  {
  }

  /** A run that goes on past a provider that is here found it as asked, or a person kept it as it is, or
      moved its endpoints, the only thing that can be updated. */
  lemma GoesOnPastADifference(state: State, answers: Answers, person: Option<Person>, luck: Luck)
    requires Run(state, answers, person, luck).trace != [] && ProviderId(answers, person) in state.providers
    ensures var provider := state.providers[ProviderId(answers, person)];
            var preset := PresetById(state.presets, ProviderId(answers, person));
            && preset.Some?
            && ((person.Some? ==> person.value.difference != Keep) ==> IsTheSame(provider, preset.value.id, answers))
            && ((person.Some? ==> person.value.difference == Stop) ==> IsThere(provider, preset.value, answers))
  {
    hide Decide, Chosen, Moved, IsThere, PresetById, PresetOf, ProviderId, KeyOf, Known, Writes, WireAgents;
    assert Decide(state, answers, person, luck).Go?;
    var d := Decide(state, answers, person, luck).value;
    DecidedBy(state, answers, person, luck);
    PresetFound(state, answers, person);
    assert d.region == answers.region && d.plan == answers.plan;
    var moved := Moved(Chosen(d.preset, d.region, d.plan), answers.base, d.existing.value.endpoints);
    if answers.base.None? {
      NowhereAsked(d.existing.value, d.preset, answers);
    } else if moved == map[] {
      NothingToMove(d.preset, answers, d.existing.value);
    }
  }

  // ---------- When a person's run goes on ----------

  /** The provider that is here can be used: the options are known and as it was added with, or the person
      keeps it, or only its endpoints are updated; and it has a key, gets one, or needs none. */
  ghost predicate CanBeUsed(state: State, id: string, answers: Answers, person: Person) {
    && id in state.providers && PresetById(state.presets, id).Some?
    && var provider, preset := state.providers[id], PresetById(state.presets, id).value;
    && IsOption(answers.region, answers.region, None, preset.regions)
    && IsOption(answers.plan, answers.plan, None, preset.plans)
    && (answers.base.Some? ==> answers.base.value.Base?)
    && (person.difference != Keep ==> IsTheSame(provider, preset.id, answers))
    && (person.difference == Stop ==> IsThere(provider, preset, answers))
    && (preset.takesKey && !preset.takesNone && provider.keys == [] ==>
          KeyFor(preset, [], answers, Some(person)).Some?)
  }

  lemma ThereIs(preset: Preset, answers: Answers, provider: Provider)
    requires answers.base.Some? ==> answers.base.value.Base?
    ensures IsThere(provider, preset, answers) <==>
              Moved(Chosen(preset, answers.region, answers.plan), answers.base, provider.endpoints) == map[]
  {
    hide Chosen, Rebased, Moved, AreEndpoints, AreRebased;
    var own := Chosen(preset, answers.region, answers.plan);
    if answers.base.None? {
      MovedOfNone(own, provider.endpoints);
    } else {
      ChosenIs(preset, answers.region, answers.plan);
      RebasedAre(own, answers.base.value);
      MovedDiffers(own, answers.base.value, provider.endpoints);
      if Moved(own, answers.base, provider.endpoints) == map[] {
        NothingToMove(preset, answers, provider);
      }
    }
  }

  lemma UsesExactly(state: State, answers: Answers, person: Person, luck: Luck)
    requires ProviderId(answers, Some(person)) in state.providers
    ensures Decide(state, answers, Some(person), luck).Go? <==>
              luck.presets && luck.providers && CanBeUsed(state, ProviderId(answers, Some(person)), answers, person)
  {
    hide Chosen, Moved, IsThere, PresetById, Rebased, AreEndpoints, AreRebased, Differs;
    if PresetOf(state, answers, Some(person)).Go? {
      PresetFound(state, answers, Some(person));
      var preset := PresetOf(state, answers, Some(person)).value;
      if answers.base.Some? ==> answers.base.value.Base? {
        ThereIs(preset, answers, state.providers[preset.id]);
      }
    }
  }

  lemma AddedGoesOn(state: State, preset: Preset, region: Option<string>, plan: Option<string>,
                    endpoints: Option<map<string, string>>, credential: Option<string>,
                    answers: Answers, person: Person, luck: Luck)
    requires luck.presets && luck.providers
    requires IsAdded(state, preset, region, plan, endpoints, credential, answers, Some(person))
    ensures Decide(state, answers, Some(person), luck).Go?
  {
    hide Chosen, PresetById, Rebased, AreEndpoints, AreRebased;
    assert PresetOf(state, answers, Some(person)) == Go(preset);
    PresetFound(state, answers, Some(person));
  }

  lemma AddsExactly(state: State, answers: Answers, person: Person, luck: Luck)
    requires ProviderId(answers, Some(person)) !in state.providers
    ensures Decide(state, answers, Some(person), luck).Go? <==>
              && luck.presets && luck.providers
              && exists preset, region, plan, endpoints, credential ::
                   IsAdded(state, preset, region, plan, endpoints, credential, answers, Some(person))
  {
    var decided := Decide(state, answers, Some(person), luck);
    if decided.Go? {
      DecidedPreset(state, answers, Some(person), luck);
      CreatesAsAnswered(state, decided.value, answers, Some(person), luck);
    }
    hide Decide, IsAdded;
    forall preset, region, plan, endpoints, credential |
        luck.presets && luck.providers
        && IsAdded(state, preset, region, plan, endpoints, credential, answers, Some(person))
      ensures decided.Go?
    {
      AddedGoesOn(state, preset, region, plan, endpoints, credential, answers, person, luck);
    }
  }

  /** With a person, the wizard goes on to write exactly when the presets and providers can be read and the
      answers, given or picked, add a provider or can use the one that is here. */
  lemma GoesOnExactly(state: State, answers: Answers, person: Person, luck: Luck)
    ensures Decide(state, answers, Some(person), luck).Go? <==>
              && luck.presets && luck.providers
              && if ProviderId(answers, Some(person)) in state.providers then
                   CanBeUsed(state, ProviderId(answers, Some(person)), answers, person)
                 else
                   exists preset, region, plan, endpoints, credential ::
                     IsAdded(state, preset, region, plan, endpoints, credential, answers, Some(person))
  {
    hide Decide, CanBeUsed, IsAdded, ProviderId;
    if ProviderId(answers, Some(person)) in state.providers {
      UsesExactly(state, answers, person, luck);
    } else {
      AddsExactly(state, answers, person, luck);
    }
  }
}
