/** The event loop of `hh tui`: packages/cli/src/tui.ts, `runTui`, with the screen's `open` and
    `restore` (packages/cli/src/tui/terminal.ts). */
module TerminalLoop {
  import opened Optional

  /** A decoded key; `number` tells key presses apart in the order they were typed. */
  datatype Key = Interrupt | Press(number: nat, name: string)

  datatype Outcome = Code(code: nat) | Failed(error: string)

  const OK := 0
  const INTERNAL := 1
  const INTERRUPTED := 130
  const TERMINATED := 143

  /** `shown` is the screen's own flag and `raw` the terminal's mode; `waiting` are the keys in
      the promise chain and `running` the one whose handler has not settled. */
  datatype State = State(done: bool, outcome: Option<Outcome>, listening: bool, shown: bool, raw: bool,
                         waiting: seq<Key>, running: Option<Key>, busy: bool)

  /** The executor up to `open.open()`: listeners are there, the terminal is untouched. */
  const READY := State(false, None, true, false, false, [], None, false)

  // ---------- What each listener does ----------

  /** How `open` and the first frame went. `open` sets raw mode, prepares the input, sets the
      screen's flag and writes; any of these calls may throw. */
  datatype Opening =
    | Opened
    | FailedAtRawMode(error: string)
    | FailedBeforeTheFlag(error: string)
    | FailedAfterTheFlag(error: string)
  {
    predicate SetsRawMode() { !FailedAtRawMode? }
    predicate SetsTheFlag() { Opened? || FailedAfterTheFlag? }
  }

  /** How `restore` goes once it finds the flag: it writes, leaves raw mode and pauses the input;
      any of these calls may throw. */
  datatype Ending = Restores | FailsInRawMode(error: string) | FailsAfterRawMode(error: string)

  /** `finish` in a listener or a handler. When `restore` throws, the listeners are gone and the
      promise is neither resolved nor rejected: its executor has returned. */
  function Finished(s: State, ending: Ending, outcome: Outcome): State {
    if s.done then s
    else s.(done := true, listening := false, shown := false,
            raw := if s.shown && !ending.FailsInRawMode? then false else s.raw,
            outcome := if s.shown && !ending.Restores? then None else Some(outcome))
  }

  /** `finish` in the executor, where what `restore` throws rejects the promise. */
  function FinishedAtStart(s: State, ending: Ending, outcome: Outcome): State {
    Finished(s, ending, outcome).(outcome :=
      if s.shown && !ending.Restores? then Some(Failed(ending.error)) else Some(outcome))
  }

  /** The end of the executor. */
  function Opens(how: Opening, ending: Ending): State {
    var s := READY.(raw := how.SetsRawMode(), shown := how.SetsTheFlag());
    if how.Opened? then s else FinishedAtStart(s, ending, Failed(how.error))
  }

  function Data(s: State, ending: Ending, keys: seq<Key>): State
    decreases keys
  {
    if keys == [] then s
    else if keys[0].Interrupt? then Finished(s, ending, Code(INTERRUPTED))
    else Data(if s.busy then s else s.(waiting := s.waiting + [keys[0]]), ending, keys[1..])
  }

  /** The next link of the chain: after the end a key is passed over. */
  function Begins(s: State): State
    requires s.waiting != []
  {
    s.(waiting := s.waiting[1..], running := if s.done then None else Some(s.waiting[0]))
  }

  /** The unfinished loop `before` has ended as `after`, and would settle with `outcome`. */
  predicate EndsWith(before: State, after: State, ending: Ending, outcome: Outcome) {
    && after.done && !after.listening && !after.shown
    && (after.raw <==> before.raw && (before.shown ==> ending.FailsInRawMode?))
    && (before.shown && !ending.Restores? ==> after.outcome == None)
    && (!before.shown || ending.Restores? ==> after.outcome == Some(outcome))
    && after.waiting == before.waiting && after.running == before.running && after.busy == before.busy
  }

  /** The place of the first interrupt, or the number of keys. */
  function FirstInterrupt(keys: seq<Key>): (n: nat)
    ensures n <= |keys| && (forall i :: 0 <= i < n ==> keys[i].Press?) && (n < |keys| ==> keys[n].Interrupt?)
  {
    if keys == [] || keys[0].Interrupt? then 0 else 1 + FirstInterrupt(keys[1..])
  }

  /** What a chunk does: all its keys join the queue, but none during a call; the first interrupt
      ends the loop, and the keys after it are not looked at. */
  lemma {:induction false} DataIs(s: State, ending: Ending, keys: seq<Key>, n: nat)
    requires n <= |keys| && (forall i :: 0 <= i < n ==> keys[i].Press?) && (n < |keys| ==> keys[n].Interrupt?)
    ensures var queued := s.(waiting := if s.busy then s.waiting else s.waiting + keys[..n]);
            && (n == |keys| ==> Data(s, ending, keys) == queued)
            && (n < |keys| && !s.done ==> EndsWith(queued, Data(s, ending, keys), ending, Code(130)))
    decreases keys
  {
    if keys != [] && n > 0 {
      var t := if s.busy then s else s.(waiting := s.waiting + [keys[0]]);
      DataIs(t, ending, keys[1..], n - 1);
      assert s.waiting + [keys[0]] + keys[1..][..n - 1] == s.waiting + keys[..n];
    } else {
      assert s.waiting + keys[..0] == s.waiting;
    }
  }

  datatype Result = Quit | Drawn | Threw(error: string)

  function Settles(s: State, ending: Ending, result: Result): State {
    var t := s.(running := None, busy := false);
    match result
    case Quit => Finished(t, ending, Code(OK))
    case Drawn => t
    case Threw(error) => Finished(t, ending, Failed(error))
  }

  function Resized(s: State, ending: Ending, error: Option<string>): State {
    if error.Some? then Finished(s, ending, Failed(error.value)) else s
  }

  datatype Signal = SigInt | SigTerm | HostExit

  function CodeOf(signal: Signal): Outcome {
    match signal
    case SigInt => Code(INTERRUPTED)
    case SigTerm => Code(TERMINATED)
    case HostExit => Code(INTERNAL)
  }

  function Signalled(s: State, ending: Ending, signal: Signal): State {
    Finished(s, ending, CodeOf(signal))
  }

  /** The variables of `runTui`'s promise, reassigned by the listeners, and the terminal. */
  class Loop {
    var done: bool
    var outcome: Option<Outcome>
    var listening: bool
    var shown: bool
    var raw: bool
    var waiting: seq<Key>
    var running: Option<Key>
    var busy: bool
    const ending: Ending

    ghost function View(): State
      reads this
    {
      State(done, outcome, listening, shown, raw, waiting, running, busy)
    }

    /** The executor up to `open.open()`. */
    constructor (ending: Ending)
      ensures View() == READY && this.ending == ending
    {
      done, outcome, listening, shown, raw := false, None, true, false, false;
      waiting, running, busy := [], None, false;
      this.ending := ending;
    }

    /** `finish`; `threw` when its `restore` did. */
    method Finish(how: Outcome) returns (threw: bool)
      modifies this
      ensures View() == Finished(old(View()), ending, how)
      ensures threw == (!old(done) && old(shown) && !ending.Restores?)
      ensures if old(done) then View() == old(View()) else EndsWith(old(View()), View(), ending, how)
    {
      if done {
        return false;
      }
      done := true;
      listening := false;
      threw := Restore();
      outcome := if threw then None else Some(how);
    }

    /** `Screen.restore`; `threw` when one of its three calls did. */
    method Restore() returns (threw: bool)
      modifies this`shown, this`raw
      ensures !shown && raw == (old(raw) && !(old(shown) && !ending.FailsInRawMode?))
      ensures threw == (old(shown) && !ending.Restores?)
    {
      if !shown {
        return false;
      }
      shown := false;
      if ending.FailsInRawMode? {
        return true;
      }
      raw := false;
      return !ending.Restores?;
    }

    /** The rest of the executor. */
    method Open(how: Opening)
      requires View() == READY
      modifies this
      ensures View() == Opens(how, ending)
      ensures how.Opened? ==> View() == old(View()).(raw := true, shown := true)
      ensures !how.Opened? ==> done && !listening && !shown
      ensures how.FailedAtRawMode? ==> !raw && outcome == Some(Failed(how.error))
      ensures how.FailedBeforeTheFlag? ==> raw && outcome == Some(Failed(how.error))
      ensures how.FailedAfterTheFlag? ==>
                raw == ending.FailsInRawMode?
                && outcome == Some(Failed(if ending.Restores? then how.error else ending.error))
    {
      var error: Option<string> := None;
      if how.FailedAtRawMode? {
        error := Some(how.error);
      } else {
        raw := true;
        if how.FailedBeforeTheFlag? {
          error := Some(how.error);
        } else {
          shown := true;
          if how.FailedAfterTheFlag? {
            error := Some(how.error);
          }
        }
      }
      if error.Some? {
        var threw := Finish(Failed(error.value));
        if threw {
          outcome := Some(Failed(ending.error));
        }
      }
    }

    method OnData(keys: seq<Key>)
      modifies this
      ensures View() == Data(old(View()), ending, keys)
      ensures var before, n := old(View()), FirstInterrupt(keys);
              var queued := before.(waiting := if before.busy then before.waiting else before.waiting + keys[..n]);
              && (n == |keys| ==> View() == queued)
              && (n < |keys| && !before.done ==> EndsWith(queued, View(), ending, Code(130)))
    {
      DataIs(View(), ending, keys, FirstInterrupt(keys));
      for i := 0 to |keys|
        invariant Data(View(), ending, keys[i..]) == Data(old(View()), ending, keys)
      {
        assert keys[i..][0] == keys[i] && keys[i..][1..] == keys[i + 1..];
        if keys[i].Interrupt? {
          var threw := Finish(Code(INTERRUPTED));
          return;
        }
        if !busy {
          waiting := waiting + [keys[i]];
        }
      }
    }

    method Handle() returns (started: bool)
      requires waiting != []
      modifies this
      ensures View() == Begins(old(View())) && started == !done
      ensures waiting == old(waiting)[1..] && running == (if started then Some(old(waiting)[0]) else None)
    {
      var key := waiting[0];
      waiting := waiting[1..];
      if done {
        running := None;
        return false;
      }
      running := Some(key);
      return true;
    }

    /** A handler's end. What `finish` throws after a quit comes back to it, and it returns at once. */
    method OnSettled(result: Result)
      modifies this
      ensures View() == Settles(old(View()), ending, result)
      ensures var idle := old(View()).(running := None, busy := false);
              && (result.Drawn? || old(done) ==> View() == idle)
              && (result.Quit? && !old(done) ==> EndsWith(idle, View(), ending, Code(0)))
              && (result.Threw? && !old(done) ==> EndsWith(idle, View(), ending, Failed(result.error)))
    {
      running, busy := None, false;
      var threw := false;
      match result {
        case Quit =>
          threw := Finish(Code(OK));
          if threw {
            threw := Finish(Failed(ending.error));
          }
        case Drawn =>
        case Threw(error) => threw := Finish(Failed(error));
      }
    }

    /** A resize, whose drawing may throw. */
    method OnResize(error: Option<string>)
      modifies this
      ensures View() == Resized(old(View()), ending, error)
      ensures error.None? || old(done) ==> View() == old(View())
      ensures error.Some? && !old(done) ==> EndsWith(old(View()), View(), ending, Failed(error.value))
    {
      if error.Some? {
        var threw := Finish(Failed(error.value));
      }
    }

    /** SIGINT, SIGTERM and the host's `exit`. */
    method OnSignal(signal: Signal)
      modifies this
      ensures View() == Signalled(old(View()), ending, signal)
      ensures old(done) ==> View() == old(View())
      ensures !old(done) ==> EndsWith(old(View()), View(), ending,
                                      Code(match signal case SigInt => 130 case SigTerm => 143 case HostExit => 1))
    {
      match signal {
        case SigInt => var threw := Finish(Code(INTERRUPTED));
        case SigTerm => var threw := Finish(Code(TERMINATED));
        case HostExit => var threw := Finish(Code(INTERNAL));
      }
    }
  }

  // ---------- Every order of events ----------

  /** `how` the executor went and how the terminal takes its one restoring are given. `calls` are
      the outcomes of the events that finish the loop, `ends` how often its end was run, `handled`
      the keys whose handler started and `typedWhileBusy` the numbers of the keys that arrived
      during a call; all history. `next` is above every key's number. */
  datatype System = System(loop: State, how: Opening, ending: Ending, calls: seq<Outcome>, ends: nat,
                           handled: seq<Key>, typedWhileBusy: set<nat>, next: nat)

  /** The executor has returned; nothing comes before its end. */
  function Started(how: Opening, ending: Ending): System {
    System(Opens(how, ending), how, ending, if how.Opened? then [] else [Failed(how.error)],
           if how.Opened? then 0 else 1, [], {}, 0)
  }

  datatype Step =
    | Chunk(keys: seq<Key>)
    | Begin
    | Call(busy: bool)
    | Settle(result: Result)
    | Resize(error: Option<string>)
    | Signal(signal: Signal)

  /** Keys are numbered as they are typed. */
  predicate Typed(keys: seq<Key>, next: nat)
    decreases keys
  {
    keys == [] ||
    (if keys[0].Press? then keys[0].number == next && Typed(keys[1..], next + 1) else Typed(keys[1..], next))
  }

  function NumbersOf(keys: seq<Key>): set<nat> {
    set key | key in keys && key.Press? :: key.number
  }

  function Presses(keys: seq<Key>): nat {
    if keys == [] then 0 else (if keys[0].Press? then 1 else 0) + Presses(keys[1..])
  }

  /** Listeners fire only while they are there; a handler starts when the one before has settled,
      and `busy` changes only inside a handler. */
  predicate Enabled(s: System, step: Step) {
    match step
    case Chunk(keys) => s.loop.listening && Typed(keys, s.next)
    case Begin => s.loop.running.None? && s.loop.waiting != []
    case Call(_) => s.loop.running.Some?
    case Settle(_) => s.loop.running.Some?
    case Resize(_) => s.loop.listening
    case Signal(_) => s.loop.listening
  }

  /** A listener or handler brought the loop to `loop`, by way of `finish(outcome)`. */
  function Finishing(s: System, loop: State, outcome: Outcome): System {
    s.(loop := loop, calls := s.calls + [outcome], ends := s.ends + if s.loop.done then 0 else 1)
  }

  function Next(s: System, step: Step): System
    requires Enabled(s, step)
  {
    match step
    case Chunk(keys) =>
      var loop := Data(s.loop, s.ending, keys);
      s.(loop := loop, next := s.next + Presses(keys),
         typedWhileBusy := s.typedWhileBusy + (if s.loop.busy then NumbersOf(keys) else {}),
         calls := if loop.done then s.calls + [Code(INTERRUPTED)] else s.calls,
         ends := if loop.done then s.ends + 1 else s.ends)
    case Begin =>
      s.(loop := Begins(s.loop), handled := if s.loop.done then s.handled else s.handled + [s.loop.waiting[0]])
    case Call(busy) => s.(loop := s.loop.(busy := busy))
    case Settle(result) =>
      var loop := Settles(s.loop, s.ending, result);
      (match result
       case Quit => Finishing(s, loop, Code(OK))
       case Drawn => s.(loop := loop)
       case Threw(error) => Finishing(s, loop, Failed(error)))
    case Resize(error) =>
      var loop := Resized(s.loop, s.ending, error);
      if error.Some? then Finishing(s, loop, Failed(error.value)) else s.(loop := loop)
    case Signal(signal) => Finishing(s, Signalled(s.loop, s.ending, signal), CodeOf(signal))
  }

  /** What an event does to the loop: the listeners' and handlers' functions, over the same terminal. */
  lemma ListenersStep(s: System, step: Step)
    requires Enabled(s, step)
    ensures var t := Next(s, step);
            && t.how == s.how && t.ending == s.ending
            && t.loop == match step
                         case Chunk(keys) => Data(s.loop, s.ending, keys)
                         case Begin => Begins(s.loop)
                         case Call(busy) => s.loop.(busy := busy)
                         case Settle(result) => Settles(s.loop, s.ending, result)
                         case Resize(error) => Resized(s.loop, s.ending, error)
                         case Signal(signal) => Signalled(s.loop, s.ending, signal)
  {
  }

  predicate Runs(s: System, steps: seq<Step>)
    decreases steps
  {
    steps == [] || (Enabled(s, steps[0]) && Runs(Next(s, steps[0]), steps[1..]))
  }

  function After(s: System, steps: seq<Step>): System
    requires Runs(s, steps)
    decreases steps
  {
    if steps == [] then s else After(Next(s, steps[0]), steps[1..])
  }

  // ---------- The invariant ----------

  /** `restore` finds the flag, and one of its calls throws. */
  predicate RestoringThrows(how: Opening, ending: Ending) {
    how.SetsTheFlag() && !ending.Restores?
  }

  /** What the promise has settled with after the end. */
  function Settlement(how: Opening, ending: Ending, first: Outcome): Option<Outcome> {
    if !RestoringThrows(how, ending) then Some(first)
    else if how.Opened? then None
    else Some(Failed(ending.error))
  }

  /** The end is run once, and settles the promise by the first outcome and how restoring went. */
  predicate SettlesOnce(s: System) {
    && s.loop.done == (s.calls != []) && s.loop.listening == !s.loop.done
    && s.loop.outcome == (if s.calls == [] then None else Settlement(s.how, s.ending, s.calls[0]))
    && s.ends == (if s.loop.done then 1 else 0)
  }

  /** Opening set raw mode, and the end does not leave it. */
  predicate StaysRaw(how: Opening, ending: Ending) {
    how.FailedBeforeTheFlag? || (how.SetsTheFlag() && ending.FailsInRawMode?)
  }

  predicate Restored(s: System) {
    && (!s.loop.done ==> s.how.Opened? && s.loop.shown && s.loop.raw)
    && (s.loop.done ==> !s.loop.shown && s.loop.raw == StaysRaw(s.how, s.ending))
  }

  predicate InOrder(keys: seq<Key>, next: nat) {
    && (forall i :: 0 <= i < |keys| ==> keys[i].Press? && keys[i].number < next)
    && (forall i, j :: 0 <= i < j < |keys| ==> keys[i].number < keys[j].number)
  }

  predicate NoneBusy(keys: seq<Key>, busy: set<nat>) {
    forall key :: key in keys ==> key.Press? && key.number !in busy
  }

  /** Handlers start one at a time, in the order of the keys, and never for a key of a busy moment. */
  predicate KeysInOrder(s: System) {
    && InOrder(s.handled + s.loop.waiting, s.next)
    && NoneBusy(s.handled + s.loop.waiting, s.typedWhileBusy)
    && (forall n :: n in s.typedWhileBusy ==> n < s.next)
    && (s.loop.busy ==> s.loop.running.Some?)
  }

  predicate Inv(s: System) {
    SettlesOnce(s) && Restored(s) && KeysInOrder(s)
  }

  lemma {:induction false} DataKeeps(s: State, ending: Ending, keys: seq<Key>, handled: seq<Key>, busy: set<nat>,
                                      next: nat)
    requires Typed(keys, next) && !s.done
    requires InOrder(handled + s.waiting, next) && NoneBusy(handled + s.waiting, busy)
    requires forall n :: n in busy ==> n < next || s.busy
    ensures var t := Data(s, ending, keys);
            && InOrder(handled + t.waiting, next + Presses(keys)) && NoneBusy(handled + t.waiting, busy)
            && t.busy == s.busy && t.running == s.running && (s.busy ==> t.waiting == s.waiting)
            && (t.done ==> t == Finished(s.(waiting := t.waiting), ending, Code(INTERRUPTED)))
            && (!t.done ==> t == s.(waiting := t.waiting))
    decreases keys
  {
    if keys != [] && keys[0].Press? {
      if s.busy {
        DataKeeps(s, ending, keys[1..], handled, busy, next + 1);
      } else {
        var t := s.(waiting := s.waiting + [keys[0]]);
        assert handled + t.waiting == handled + s.waiting + [keys[0]];
        DataKeeps(t, ending, keys[1..], handled, busy, next + 1);
      }
    }
  }

  lemma {:induction false} TypedNumbers(keys: seq<Key>, next: nat)
    requires Typed(keys, next)
    ensures forall n :: n in NumbersOf(keys) ==> next <= n < next + Presses(keys)
    decreases keys
  {
    if keys != [] {
      TypedNumbers(keys[1..], if keys[0].Press? then next + 1 else next);
      forall n | n in NumbersOf(keys)
        ensures n in NumbersOf(keys[1..]) || (keys[0].Press? && n == keys[0].number)
      {
        var key :| key in keys && key.Press? && key.number == n;
        assert key in [keys[0]] + keys[1..];
      }
    }
  }

  lemma ChunkKeepsInv(s: System, keys: seq<Key>)
    requires Inv(s) && Enabled(s, Chunk(keys))
    ensures Inv(Next(s, Chunk(keys)))
  {
    var t := Next(s, Chunk(keys));
    DataKeeps(s.loop, s.ending, keys, s.handled, s.typedWhileBusy, s.next);
    TypedNumbers(keys, s.next);
    if s.loop.busy {
      forall key | key in s.handled + s.loop.waiting ensures key.Press? && key.number !in t.typedWhileBusy {
        var i :| 0 <= i < |s.handled + s.loop.waiting| && (s.handled + s.loop.waiting)[i] == key;
      }
    }
  }

  lemma BeginKeepsInv(s: System)
    requires Inv(s) && Enabled(s, Begin)
    ensures Inv(Next(s, Begin))
  {
    var t := Next(s, Begin);
    if s.loop.done {
      var all, rest := s.handled + s.loop.waiting, t.handled + t.loop.waiting;
      var n := |s.handled|;
      assert rest == all[..n] + all[n + 1..];
    } else {
      assert t.handled + t.loop.waiting == s.handled + s.loop.waiting;
    }
  }

  lemma NextKeepsInv(s: System, step: Step)
    requires Inv(s) && Enabled(s, step)
    ensures Inv(Next(s, step))
  {
    match step
    case Chunk(keys) => ChunkKeepsInv(s, keys);
    case Begin => BeginKeepsInv(s);
    case _ => hide InOrder, NoneBusy;
  }

  lemma {:induction false} AfterKeepsInv(s: System, steps: seq<Step>)
    requires Inv(s) && Runs(s, steps)
    ensures var t := After(s, steps); Inv(t) && t.how == s.how && t.ending == s.ending
    decreases steps
  {
    if steps != [] {
      NextKeepsInv(s, steps[0]);
      AfterKeepsInv(Next(s, steps[0]), steps[1..]);
    }
  }

  /** However the executor went, over every order of events: the end is run once, for the first
      event that finishes the loop, and keys are handled one at a time in the order they were
      typed, none of a busy moment. */
  lemma EveryOrderOfEvents(how: Opening, ending: Ending, steps: seq<Step>)
    requires Runs(Started(how, ending), steps)
    ensures var s := After(Started(how, ending), steps); SettlesOnce(s) && KeysInOrder(s)
  {
    AfterKeepsInv(Started(how, ending), steps);
  }

  lemma {:induction false} CallsGrow(s: System, steps: seq<Step>)
    requires Runs(s, steps)
    ensures s.calls <= After(s, steps).calls
    decreases steps
  {
    if steps != [] {
      CallsGrow(Next(s, steps[0]), steps[1..]);
    }
  }

  /** When opening failed, that is the first event that finishes the loop. */
  lemma FailsFirst(how: Opening, ending: Ending, steps: seq<Step>)
    requires Runs(Started(how, ending), steps) && !how.Opened?
    ensures var s := After(Started(how, ending), steps); s.calls != [] && s.calls[0] == Failed(how.error)
  {
    CallsGrow(Started(how, ending), steps);
  }

  /** After the end the promise is unsettled exactly when the screen had opened and restoring it
      throws. Otherwise it has settled: with the first outcome once the screen had opened, and else
      with what opening threw, or what restoring threw after that. */
  lemma SettlesExactly(how: Opening, ending: Ending, steps: seq<Step>)
    requires Runs(Started(how, ending), steps) && After(Started(how, ending), steps).loop.done
    ensures var s := After(Started(how, ending), steps);
            && (s.loop.outcome.None? <==> how.Opened? && !ending.Restores?)
            && (how.Opened? && ending.Restores? ==> s.calls != [] && s.loop.outcome == Some(s.calls[0]))
            && (!how.Opened? ==>
                s.loop.outcome == Some(Failed(if RestoringThrows(how, ending) then ending.error else how.error)))
  {
    AfterKeepsInv(Started(how, ending), steps);
    if !how.Opened? {
      FailsFirst(how, ending, steps);
    }
  }

  /** Once finished: the outcome stands, no handler starts, nothing listens. */
  lemma {:induction false} NothingStartsAfterTheEnd(s: System, steps: seq<Step>)
    requires Inv(s) && Runs(s, steps) && s.loop.done
    ensures var t := After(s, steps);
            && t.loop.outcome == s.loop.outcome && t.handled == s.handled && t.ends == s.ends
            && t.loop.raw == s.loop.raw && !t.loop.listening
    decreases steps
  {
    if steps != [] {
      NextKeepsInv(s, steps[0]);
      NothingStartsAfterTheEnd(Next(s, steps[0]), steps[1..]);
    }
  }

  /** After the end the terminal is out of raw mode exactly unless opening threw between setting
      raw mode and setting the flag, without which `restore` does nothing, or `restore` threw
      before it left raw mode. */
  lemma TerminalIsRestored(how: Opening, ending: Ending, steps: seq<Step>)
    requires Runs(Started(how, ending), steps) && After(Started(how, ending), steps).loop.done
    ensures !After(Started(how, ending), steps).loop.raw <==> !StaysRaw(how, ending)
  {
    AfterKeepsInv(Started(how, ending), steps);
  }

  /** Opening throws once raw mode is set: the promise rejects with that, and raw mode stays. */
  lemma RawModeStaysAfterOpening(ending: Ending, error: string)
    ensures var s := Started(FailedBeforeTheFlag(error), ending);
            s.loop.done && s.loop.raw && s.loop.outcome == Some(Failed(error))
    ensures var s := Started(FailedAtRawMode(error), ending);
            s.loop.done && !s.loop.raw && s.loop.outcome == Some(Failed(error))
  {
  }

  lemma OneStepMore(s: System, step: Step, steps: seq<Step>)
    requires Enabled(s, step) && Runs(Next(s, step), steps)
    ensures Runs(s, [step] + steps) && After(s, [step] + steps) == After(Next(s, step), steps)
  {
    assert ([step] + steps)[1..] == steps;
  }

  /** Ctrl+C, and the restoring write throws: raw mode stays, and the promise never settles. */
  lemma RawModeStaysAfterTheEnd(error: string) returns (steps: seq<Step>)
    ensures var start := Started(Opened, FailsInRawMode(error));
            && Runs(start, steps)
            && forall more :: Runs(After(start, steps), more) ==>
                 var s := After(After(start, steps), more); s.loop.done && s.loop.raw && s.loop.outcome == None
  {
    var start := Started(Opened, FailsInRawMode(error));
    steps := [Chunk([Interrupt])];
    assert Typed([Interrupt], 0) && Data(start.loop, start.ending, [Interrupt]).done;
    OneStepMore(start, Chunk([Interrupt]), []);
    AfterKeepsInv(start, steps);
    var ended := After(start, steps);
    forall more | Runs(ended, more)
      ensures var s := After(ended, more); s.loop.done && s.loop.raw && s.loop.outcome == None
    {
      NothingStartsAfterTheEnd(ended, more);
      AfterKeepsInv(ended, more);
    }
  }

  lemma {:induction false} WaitingOnlyGrows(s: State, ending: Ending, keys: seq<Key>)
    ensures s.waiting <= Data(s, ending, keys).waiting
    decreases keys
  {
    if keys != [] && keys[0].Press? {
      WaitingOnlyGrows(if s.busy then s else s.(waiting := s.waiting + [keys[0]]), ending, keys[1..]);
    }
  }

  lemma {:induction false} NotQueued(s: State, ending: Ending, keys: seq<Key>, key: Key)
    requires forall i :: 0 <= i < |keys| ==> keys[i] != key
    ensures key in Data(s, ending, keys).waiting <==> key in s.waiting
    decreases keys
  {
    if keys != [] && keys[0].Press? {
      NotQueued(if s.busy then s else s.(waiting := s.waiting + [keys[0]]), ending, keys[1..], key);
    }
  }

  /** A key is queued exactly when it arrives outside a call and before any interrupt of its chunk. */
  lemma {:induction false} QueuedExactly(s: State, ending: Ending, keys: seq<Key>, k: nat)
    requires k < |keys| && keys[k].Press?
    requires keys[k] !in s.waiting && forall i :: 0 <= i < |keys| && i != k ==> keys[i] != keys[k]
    ensures keys[k] in Data(s, ending, keys).waiting <==> !s.busy && forall i :: 0 <= i < k ==> keys[i].Press?
    decreases keys
  {
    if k > 0 && keys[0].Press? {
      var t := if s.busy then s else s.(waiting := s.waiting + [keys[0]]);
      assert keys[0] != keys[k] && keys[1..][k - 1] == keys[k];
      forall i | 0 <= i < |keys[1..]| && i != k - 1 ensures keys[1..][i] != keys[k] {
        assert keys[i + 1] != keys[k];
      }
      QueuedExactly(t, ending, keys[1..], k - 1);
      assert (forall i :: 0 <= i < k ==> keys[i].Press?) <==> (forall i :: 0 <= i < k - 1 ==> keys[1..][i].Press?) by {
        assert forall i :: 0 <= i < k - 1 ==> keys[1..][i] == keys[i + 1];
      }
    } else if k == 0 {
      var t := if s.busy then s else s.(waiting := s.waiting + [keys[0]]);
      WaitingOnlyGrows(t, ending, keys[1..]);
      NotQueued(t, ending, keys[1..], keys[0]);
    }
  }

  // ---------- Keys typed ahead of a call ----------

  lemma {:induction false} DataStaysDone(s: State, ending: Ending, keys: seq<Key>)
    requires s.done
    ensures Data(s, ending, keys).done
    decreases keys
  {
    if keys != [] && keys[0].Press? {
      DataStaysDone(if s.busy then s else s.(waiting := s.waiting + [keys[0]]), ending, keys[1..]);
    }
  }

  lemma DoneStaysOneStep(s: System, step: Step)
    requires Enabled(s, step) && s.loop.done
    ensures Next(s, step).loop.done
  {
    if step.Chunk? { DataStaysDone(s.loop, s.ending, step.keys); }
  }

  lemma {:induction false} DoneStays(s: System, steps: seq<Step>)
    requires Runs(s, steps)
    ensures s.loop.done ==> After(s, steps).loop.done
    decreases steps
  {
    if steps != [] {
      if s.loop.done { DoneStaysOneStep(s, steps[0]); }
      DoneStays(Next(s, steps[0]), steps[1..]);
    }
  }

  lemma FinishingKeepsKeys(s: System, step: Step)
    requires Enabled(s, step) && !step.Chunk? && !step.Begin?
    ensures var t := Next(s, step); t.handled == s.handled && t.loop.waiting == s.loop.waiting && t.next == s.next
  {
  }

  lemma FinishedKeepsWaiting(s: State, ending: Ending)
    ensures Finished(s, ending, Code(INTERRUPTED)).waiting == s.waiting
  {
  }

  lemma {:induction false} DataAddsNew(s: State, ending: Ending, keys: seq<Key>, next: nat)
    requires Typed(keys, next)
    ensures s.waiting <= Data(s, ending, keys).waiting
    ensures forall key :: key in Data(s, ending, keys).waiting ==>
        key in s.waiting || (key.Press? && next <= key.number)
    decreases keys
  {
    hide Finished;
    FinishedKeepsWaiting(s, ending);
    if keys != [] && keys[0].Press? {
      DataAddsNew(if s.busy then s else s.(waiting := s.waiting + [keys[0]]), ending, keys[1..], next + 1);
    }
  }

  lemma OldKeysWaitOneStep(s: System, step: Step)
    requires Inv(s) && Enabled(s, step)
    ensures var t := Next(s, step);
            && s.next <= t.next
            && (!t.loop.done ==> s.handled + s.loop.waiting <= t.handled + t.loop.waiting)
            && forall key :: key in t.handled + t.loop.waiting ==>
                 key in s.handled + s.loop.waiting || (key.Press? && s.next <= key.number)
  {
    hide SettlesOnce, Restored, KeysInOrder, Finished;
    match step
    case Chunk(keys) => DataAddsNew(s.loop, s.ending, keys, s.next);
    case Begin =>
      var t := Next(s, Begin);
      assert s.loop.waiting == [s.loop.waiting[0]] + s.loop.waiting[1..];
      assert !s.loop.done ==> t.handled + t.loop.waiting == s.handled + s.loop.waiting;
    case _ => FinishingKeepsKeys(s, step);
  }

  /** Keys are handled from the front of the queue, and keys still to be typed have higher numbers. */
  lemma {:induction false} OldKeysWaited(s: System, steps: seq<Step>)
    requires Inv(s) && Runs(s, steps)
    ensures var t := After(s, steps);
            && s.next <= t.next
            && (!t.loop.done ==> s.handled + s.loop.waiting <= t.handled + t.loop.waiting)
            && forall key :: key in t.handled + t.loop.waiting ==>
                 key in s.handled + s.loop.waiting || (key.Press? && s.next <= key.number)
    decreases steps
  {
    if steps != [] {
      hide Inv;
      NextKeepsInv(s, steps[0]);
      OldKeysWaitOneStep(s, steps[0]);
      OldKeysWaited(Next(s, steps[0]), steps[1..]);
      DoneStays(Next(s, steps[0]), steps[1..]);
    }
  }

  lemma InFront(front: seq<Key>, all: seq<Key>, k: nat)
    requires k < |front|
    ensures front <= all ==> front[k] in all
  {
    if front <= all {
      assert all[k] == front[k];
    }
  }

  /** A key that waits when a call starts is handled, unless the loop ends first or it still waits. */
  lemma WaitingKeysComeNext(s: System, steps: seq<Step>, k: nat)
    requires Inv(s) && Enabled(s, Call(true)) && Runs(Next(s, Call(true)), steps) && k < |s.loop.waiting|
    ensures var t := After(Next(s, Call(true)), steps);
            t.loop.done || s.loop.waiting[k] in t.handled || s.loop.waiting[k] in t.loop.waiting
  {
    NextKeepsInv(s, Call(true));
    OldKeysWaited(Next(s, Call(true)), steps);
    var t := After(Next(s, Call(true)), steps);
    var key := s.loop.waiting[k];
    hide *;
    InFront(s.handled + s.loop.waiting, t.handled + t.loop.waiting, |s.handled| + k);
    assert (s.handled + s.loop.waiting)[|s.handled| + k] == key;
  }

  /** Whether some order of events after the call's start handles a key that was typed before it. */
  ghost predicate HandlesTypedAhead(s: System, steps: seq<Step>)
    requires Enabled(s, Call(true)) && Runs(Next(s, Call(true)), steps)
  {
    exists key: Key :: key in After(Next(s, Call(true)), steps).handled && key !in s.handled && key.Press?
        && key.number < s.next
  }

  lemma FirstWaits(s: System)
    requires KeysInOrder(s) && s.loop.waiting != []
    ensures var key := s.loop.waiting[0]; key.Press? && key.number < s.next && key !in s.handled
  {
    var all, n := s.handled + s.loop.waiting, |s.handled|;
    assert all[n] == s.loop.waiting[0];
    forall i | 0 <= i < n ensures s.handled[i] != s.loop.waiting[0] {
      assert all[i] == s.handled[i];
    }
  }

  lemma NoStep(s: System)
    ensures Runs(s, []) && After(s, []) == s
  {
  }

  /** No key typed before a call starts can be handled after it exactly when none waits then. */
  lemma TypedAheadExactly(s: System)
    requires Inv(s) && !s.loop.done && Enabled(s, Call(true))
    ensures s.loop.waiting == [] <==>
              forall steps :: Runs(Next(s, Call(true)), steps) ==> !HandlesTypedAhead(s, steps)
  {
    NextKeepsInv(s, Call(true));
    var t := Next(s, Call(true));
    if s.loop.waiting == [] {
      forall steps | Runs(t, steps) ensures !HandlesTypedAhead(s, steps) {
        OldKeysWaited(t, steps);
        assert s.handled + s.loop.waiting == s.handled;
      }
    } else {
      var key, u := s.loop.waiting[0], Next(t, Settle(Drawn));
      NoStep(Next(u, Begin));
      OneStepMore(u, Begin, []);
      OneStepMore(t, Settle(Drawn), [Begin] + []);
      FirstWaits(s);
      assert key in Next(u, Begin).handled;
      assert HandlesTypedAhead(s, [Settle(Drawn)] + ([Begin] + []));
    }
  }

  lemma TwoKeysTyped(s: State, ending: Ending, a: Key, b: Key)
    requires !s.busy && a.Press? && a.number == 0 && b.Press? && b.number == 1
    ensures Typed([a, b], 0) && Data(s, ending, [a, b]) == s.(waiting := s.waiting + [a] + [b])
  {
    assert [a, b][1..] == [b] && [b][1..] == [];
    var t := s.(waiting := s.waiting + [a]);
    assert Data(t, ending, [b]) == Data(t.(waiting := t.waiting + [b]), ending, []);
  }

  /** So a `y` typed in the same chunk as the key that starts a call is handled after the call. */
  lemma TypedAheadIsHandled() returns (steps: seq<Step>, y: Key)
    ensures var start := Started(Opened, Restores); Runs(start, steps) && y in After(start, steps).handled
    ensures exists i :: 0 < i < |steps| && steps[i] == Call(true) && forall j :: i < j < |steps| ==> !steps[j].Chunk?
  {
    var enter, start := Press(0, "enter"), Started(Opened, Restores);
    y := Press(1, "y");
    steps := [Chunk([enter, y]), Begin, Call(true), Settle(Drawn), Begin];
    assert steps[2] == Call(true);
    TwoKeysTyped(start.loop, Restores, enter, y);
    var s2 := Next(start, Chunk([enter, y]));
    assert s2.loop.waiting == [enter, y];
    var s3 := Next(s2, Begin);
    var s4 := Next(s3, Call(true));
    var s5 := Next(s4, Settle(Drawn));
    var s6 := Next(s5, Begin);
    hide Next, Enabled;
    OneStepMore(s5, Begin, []);
    OneStepMore(s4, Settle(Drawn), [Begin] + []);
    OneStepMore(s3, Call(true), [Settle(Drawn)] + ([Begin] + []));
    OneStepMore(s2, Begin, [Call(true)] + ([Settle(Drawn)] + ([Begin] + [])));
    var rest := [Begin] + ([Call(true)] + ([Settle(Drawn)] + ([Begin] + [])));
    OneStepMore(start, Chunk([enter, y]), rest);
    assert steps == [Chunk([enter, y])] + rest;
  }
}
