/** The log view's polling: packages/console/components/log-panel.tsx, `load`, the polling effect
    and its cleanup. A cursor and a token per source keep each page from being appended twice,
    whatever timers, manual refreshes, aborts and remounts do. */
module LogPoller {
  import opened Optional

  datatype Source = Engine | Gateway

  type Record = string

  const FIRST_PAGE := 500
  const KEEP := 5000

  /** A page: the log's records from `from` to `to`; `missing` when there is no log file yet. */
  datatype Page = Page(from: nat, to: nat, missing: bool)

  function Last(records: seq<Record>, count: nat): seq<Record> {
    if |records| <= count then records else records[|records| - count..]
  }

  /** One source's refs and state: `cursors`, `loading` and `state`. */
  datatype Pane = Pane(cursor: Option<nat>, token: Option<nat>, records: seq<Record>, truncated: bool)

  const EMPTY := Pane(None, None, [], false)

  /** A request in flight: its token, the cursor it was sent with and its effect's signal, if any. */
  datatype Request = Request(token: nat, after: Option<nat>, signal: Option<nat>)

  /** What the daemon may answer: the records after the cursor, or, `truncated`, only the newest of
      them; without a cursor, the newest records. The file, once there, stays. */
  predicate Answers(page: Page, after: Option<nat>, log: seq<Record>) {
    && page.from <= page.to <= |log|
    && (after.Some? ==> !page.missing && after.value <= page.from)
    && (after.None? ==> page.to - page.from <= FIRST_PAGE)
    && (page.missing ==> page.from == page.to == 0)
  }

  predicate Truncated(page: Page, after: Option<nat>) {
    page.from > if after.Some? then after.value else 0
  }

  // ---------- What each piece of code between two awaits does to a pane ----------

  function Begun(p: Pane, token: nat): Pane {
    if p.token.Some? then p else p.(token := Some(token))
  }

  function Released(p: Pane, token: nat): Pane {
    if p.token == Some(token) then p.(token := None) else p
  }

  function Answered(p: Pane, r: Request, aborted: bool, page: Page, log: seq<Record>): Pane
    requires page.from <= page.to <= |log|
  {
    Released(
      if aborted || p.token != Some(r.token) then p
      else Pane(if page.missing then None else Some(page.to), p.token,
                Last(p.records + log[page.from..page.to], KEEP), p.truncated || Truncated(page, r.after)),
      r.token)
  }

  /** A page is appended whole, the newest `KEEP` records kept, the cursor moves to its end, and a page
      that starts behind the cursor it was asked for is remembered as cut short: only for the request that
      holds the token and was not aborted. That request gives the token back either way. */
  lemma AnsweredIs(p: Pane, r: Request, aborted: bool, page: Page, log: seq<Record>)
    requires page.from <= page.to <= |log|
    ensures var next, all := Answered(p, r, aborted, page, log), p.records + log[page.from..page.to];
            && (!aborted && p.token == Some(r.token) ==>
                  && next.cursor == (if page.missing then None else Some(page.to))
                  && next.records == (if |all| <= 5000 then all else all[|all| - 5000..])
                  && (next.truncated <==> p.truncated || page.from > if r.after.Some? then r.after.value else 0))
            && (aborted || p.token != Some(r.token) ==>
                  next.cursor == p.cursor && next.records == p.records && next.truncated == p.truncated)
            && next.token == if p.token == Some(r.token) then None else p.token
  {
  }

  /** The view's refs and state for both sources, updated in place. */
  class LogView {
    var cursors: map<Source, Option<nat>>
    var loading: map<Source, Option<nat>>
    var records: map<Source, seq<Record>>
    var truncated: map<Source, bool>
    var symbols: nat

    ghost predicate Valid()
      reads this
    {
      forall source: Source :: source in cursors && source in loading && source in records && source in truncated
    }

    ghost function PaneOf(source: Source): Pane
      requires Valid()
      reads this
    {
      Pane(cursors[source], loading[source], records[source], truncated[source])
    }

    constructor ()
      ensures Valid() && forall source :: PaneOf(source) == EMPTY
    {
      cursors := map[Engine := None, Gateway := None];
      loading := map[Engine := None, Gateway := None];
      records := map[Engine := [], Gateway := []];
      truncated := map[Engine := false, Gateway := false];
      symbols := 0;
      new;
      forall source: Source ensures source in cursors && source in loading && source in records && source in truncated {
        match source case Engine => case Gateway =>
      }
    }

    /** `load` up to its await: nothing while a request is out, else a new token. */
    method Begin(which: Source, signal: Option<nat>) returns (request: Option<Request>)
      requires Valid()
      modifies this`loading, this`symbols
      ensures Valid() && PaneOf(which) == Begun(old(PaneOf(which)), old(symbols)) && old(symbols) <= symbols
      ensures request == if old(PaneOf(which)).token.Some? then None
                         else Some(Request(old(symbols), old(PaneOf(which)).cursor, signal))
      ensures request.None? <==> old(loading[which]).Some?
      ensures request.None? ==> loading[which] == old(loading[which])
      ensures request.Some? ==>
                loading[which] == Some(request.value.token) && request.value.after == cursors[which]
                && request.value.signal == signal && old(symbols) <= request.value.token < symbols
      ensures forall other :: other != which ==> PaneOf(other) == old(PaneOf(other))
    {
      if loading[which].Some? {
        return None;
      }
      var token := symbols;
      symbols := symbols + 1;
      loading := loading[which := Some(token)];
      request := Some(Request(token, cursors[which], signal));
    }

    /** `load` after its await, the `finally` included. */
    method Finish(which: Source, r: Request, aborted: bool, page: Page, log: seq<Record>)
      requires Valid() && page.from <= page.to <= |log|
      modifies this
      ensures Valid() && PaneOf(which) == Answered(old(PaneOf(which)), r, aborted, page, log)
      ensures forall other :: other != which ==> PaneOf(other) == old(PaneOf(other))
    {
      if !aborted && loading[which] == Some(r.token) {
        cursors := cursors[which := if page.missing then None else Some(page.to)];
        records := records[which := Last(records[which] + log[page.from..page.to], KEEP)];
        truncated := truncated[which := truncated[which] || Truncated(page, r.after)];
      }
      if loading[which] == Some(r.token) {
        loading := loading[which := None];
      }
    }

    /** The effect's cleanup: a remount must not wait for the aborted request. */
    method CleanUp(source: Source)
      requires Valid()
      modifies this`loading
      ensures Valid() && PaneOf(source) == old(PaneOf(source)).(token := None)
      ensures loading[source].None?
      ensures forall other :: other != source ==> PaneOf(other) == old(PaneOf(other))
    {
      loading := loading[source := None];
    }
  }

  // ---------- One source over every interleaving ----------

  /** `mounted` is the running effect's signal. The last three are history: the first record of
      the first page, the places in the log of all records ever appended, and whether some page
      after the first was truncated. */
  datatype System = System(pane: Pane, log: seq<Record>, inFlight: set<Request>, symbols: nat,
                           mounted: Option<nat>, mounts: nat, first: nat, places: seq<nat>, gap: bool)

  const INITIAL := System(EMPTY, [], {}, 0, None, 0, 0, [], false)

  datatype Step =
    | Write(record: Record)
    | Mount
    | Unmount
    | Poll
    | Refresh
    | Respond(request: Request, page: Page)
    | Fail(request: Request)

  predicate Enabled(s: System, step: Step) {
    match step
    case Write(_) => true
    case Mount => s.mounted.None?
    case Unmount => s.mounted.Some?
    case Poll => s.mounted.Some?
    case Refresh => true
    case Respond(r, page) => r in s.inFlight && Answers(page, r.after, s.log)
    case Fail(r) => r in s.inFlight
  }

  predicate Aborted(s: System, r: Request) {
    r.signal.Some? && r.signal != s.mounted
  }

  function Loaded(s: System, signal: Option<nat>): System {
    if s.pane.token.Some? then s
    else s.(pane := Begun(s.pane, s.symbols), symbols := s.symbols + 1,
            inFlight := s.inFlight + {Request(s.symbols, s.pane.cursor, signal)})
  }

  function Span(from: nat, to: nat): seq<nat>
    requires from <= to
  {
    seq(to - from, k requires 0 <= k => from + k)
  }

  function Next(s: System, step: Step): System
    requires Enabled(s, step)
  {
    match step
    case Write(record) => s.(log := s.log + [record])
    case Mount => s.(mounted := Some(s.mounts), mounts := s.mounts + 1)
    case Unmount => s.(mounted := None, pane := s.pane.(token := None))
    case Poll => Loaded(s, s.mounted)
    case Refresh => Loaded(s, None)
    case Respond(r, page) =>
      var t := s.(inFlight := s.inFlight - {r}, pane := Answered(s.pane, r, Aborted(s, r), page, s.log));
      if Aborted(s, r) || s.pane.token != Some(r.token) then t
      else t.(places := s.places + Span(page.from, page.to),
              first := if s.pane.cursor.None? then page.from else s.first,
              gap := s.gap || (s.pane.cursor.Some? && Truncated(page, r.after)))
    case Fail(r) => s.(inFlight := s.inFlight - {r}, pane := Released(s.pane, r.token))
  }

  /** An idle view asks at its cursor when its interval or a person wants it to, with the effect's signal or
      without one; while a request is out it does not. A mount has a signal of its own; an unmount frees the
      token; a failure gives it back. */
  lemma LoadsStep(s: System, step: Step)
    requires Enabled(s, step)
    ensures var t := Next(s, step);
            && (step.Write? ==> t == s.(log := s.log + [step.record]))
            && (step.Mount? ==> t.mounted == Some(s.mounts) && t.mounts > s.mounts && t.pane == s.pane)
            && (step.Unmount? ==> t.mounted.None? && t.pane == s.pane.(token := None) && t.inFlight == s.inFlight)
            && ((step.Poll? || step.Refresh?) && s.pane.token.Some? ==> t == s)
            && ((step.Poll? || step.Refresh?) && s.pane.token.None? ==>
                  && t.pane == s.pane.(token := Some(s.symbols)) && t.symbols > s.symbols
                  && t.inFlight == s.inFlight +
                      {Request(s.symbols, s.pane.cursor, if step.Poll? then s.mounted else None)})
            && (step.Fail? ==>
                  && t.inFlight == s.inFlight - {step.request}
                  && t.pane == s.pane.(token := if s.pane.token == Some(step.request.token) then None
                      else s.pane.token))
            && (step.Respond? ==>
                  && t.inFlight == s.inFlight - {step.request}
                  && t.pane == Answered(s.pane, step.request, Aborted(s, step.request), step.page, s.log)
                  && (Aborted(s, step.request) <==>
                        step.request.signal.Some? && (s.mounted.None? || step.request.signal != s.mounted)))
  {
    hide Answered, Answers;
  }

  predicate Runs(s: System, steps: seq<Step>)
    decreases steps
  {
    steps == [] || (Enabled(s, steps[0]) && Runs(Next(s, steps[0]), steps[1..]))
  }

  function After(s: System, steps: seq<Step>): System
    requires Runs(s, steps)
    decreases steps
  {
    if steps == [] then s else After(Next(s, steps[0]), steps[1..])
  }

  // ---------- The invariant ----------

  predicate TokensInOrder(s: System) {
    && (forall r :: r in s.inFlight ==> r.token < s.symbols && (r.signal.Some? ==> r.signal.value < s.mounts))
    && (forall r, q :: r in s.inFlight && q in s.inFlight && r.token == q.token ==> r == q)
    && (s.mounted.Some? ==> s.mounted.value < s.mounts)
  }

  /** A request that holds the token was sent at the current cursor, and was not aborted. */
  predicate TokenIsCurrent(s: System) {
    && (forall r :: r in s.inFlight && s.pane.token == Some(r.token) ==> r.after == s.pane.cursor && !Aborted(s, r))
    && (s.pane.token.Some? ==> exists r :: r in s.inFlight && s.pane.token == Some(r.token))
  }

  predicate Increasing(places: seq<nat>, bound: nat) {
    && (forall i, j :: 0 <= i < j < |places| ==> places[i] < places[j])
    && (forall i :: 0 <= i < |places| ==> places[i] < bound)
  }

  function At(log: seq<Record>, places: seq<nat>): seq<Record>
    requires forall i :: 0 <= i < |places| ==> places[i] < |log|
  {
    seq(|places|, k requires 0 <= k < |places| => log[places[k]])
  }

  /** Every record was appended at most once, in the log's order, and the view keeps the newest. */
  predicate OnceInOrder(s: System) {
    && Increasing(s.places, if s.pane.cursor.Some? then s.pane.cursor.value else 0)
    && (s.pane.cursor.Some? ==> s.pane.cursor.value <= |s.log|)
    && s.pane.records == Last(At(s.log, s.places), KEEP)
  }

  /** A gap is always announced, and without one nothing between the first page and the cursor is missing. */
  predicate GapsAreAnnounced(s: System) {
    && (s.gap ==> s.pane.truncated)
    && (s.pane.cursor.None? ==> s.places == [])
    && (s.pane.cursor.Some? && !s.gap ==>
          s.first <= s.pane.cursor.value && s.places == Span(s.first, s.pane.cursor.value))
  }

  predicate Inv(s: System) {
    TokensInOrder(s) && TokenIsCurrent(s) && OnceInOrder(s) && GapsAreAnnounced(s)
  }

  lemma NextKeepsTokens(s: System, step: Step)
    requires Inv(s) && Enabled(s, step)
    ensures TokensInOrder(Next(s, step))
  {
  }

  lemma NextKeepsCurrent(s: System, step: Step)
    requires Inv(s) && Enabled(s, step)
    ensures TokenIsCurrent(Next(s, step))
  {
  }

  lemma LastOfLast(a: seq<Record>, b: seq<Record>, count: nat)
    ensures Last(Last(a, count) + b, count) == Last(a + b, count)
  {
  }

  lemma AtSpan(log: seq<Record>, places: seq<nat>, from: nat, to: nat)
    requires from <= to <= |log| && forall i :: 0 <= i < |places| ==> places[i] < |log|
    ensures At(log, places + Span(from, to)) == At(log, places) + log[from..to]
  {
  }

  lemma AtGrows(log: seq<Record>, record: Record, places: seq<nat>)
    requires forall i :: 0 <= i < |places| ==> places[i] < |log|
    ensures At(log + [record], places) == At(log, places)
  {
  }

  lemma SpanJoins(from: nat, middle: nat, to: nat)
    requires from <= middle <= to
    ensures Span(from, middle) + Span(middle, to) == Span(from, to)
  {
  }

  lemma AppendKeepsOrder(s: System, page: Page)
    requires OnceInOrder(s) && Answers(page, s.pane.cursor, s.log)
    requires s.pane.cursor.None? ==> s.places == []
    ensures Increasing(s.places + Span(page.from, page.to), page.to)
    ensures Last(s.pane.records + s.log[page.from..page.to], KEEP)
         == Last(At(s.log, s.places + Span(page.from, page.to)), KEEP)
  {
    AtSpan(s.log, s.places, page.from, page.to);
    LastOfLast(At(s.log, s.places), s.log[page.from..page.to], KEEP);
    hide Last, At;
  }

  lemma AppendKeepsSpan(s: System, page: Page)
    requires GapsAreAnnounced(s) && Answers(page, s.pane.cursor, s.log)
    ensures s.pane.cursor.None? ==> s.places + Span(page.from, page.to) == Span(page.from, page.to)
    ensures page.missing ==> s.places + Span(page.from, page.to) == []
    ensures s.pane.cursor.Some? && !s.gap && !Truncated(page, s.pane.cursor) ==>
              s.places + Span(page.from, page.to) == Span(s.first, page.to)
  {
    if s.pane.cursor.Some? && !s.gap && !Truncated(page, s.pane.cursor) {
      SpanJoins(s.first, page.from, page.to);
    }
  }

  lemma AppliedKeepsRecords(s: System, r: Request, page: Page)
    requires Inv(s) && Enabled(s, Respond(r, page)) && s.pane.token == Some(r.token) && !Aborted(s, r)
    ensures var t := Next(s, Respond(r, page)); OnceInOrder(t) && GapsAreAnnounced(t)
  {
    hide TokensInOrder, Last, At, Increasing, Span;
    assert r.after == s.pane.cursor && OnceInOrder(s) && GapsAreAnnounced(s);
    AppendKeepsOrder(s, page);
    AppendKeepsSpan(s, page);
  }

  lemma NextKeepsRecords(s: System, step: Step)
    requires Inv(s) && Enabled(s, step)
    ensures OnceInOrder(Next(s, step)) && GapsAreAnnounced(Next(s, step))
  {
    match step
    case Write(record) => AtGrows(s.log, record, s.places);
    case Respond(r, page) =>
      if !Aborted(s, r) && s.pane.token == Some(r.token) { AppliedKeepsRecords(s, r, page); }
    case _ =>
  }

  lemma {:induction false} AfterKeepsInv(s: System, steps: seq<Step>)
    requires Inv(s) && Runs(s, steps)
    ensures Inv(After(s, steps))
    decreases steps
  {
    if steps != [] {
      NextKeepsTokens(s, steps[0]);
      NextKeepsCurrent(s, steps[0]);
      NextKeepsRecords(s, steps[0]);
      AfterKeepsInv(Next(s, steps[0]), steps[1..]);
    }
  }

  /** Over every interleaving: a response that is applied was asked for at the current cursor. */
  lemma AppliedPagesStartAtTheCursor(steps: seq<Step>, r: Request)
    requires Runs(INITIAL, steps)
    requires var s := After(INITIAL, steps); r in s.inFlight && s.pane.token == Some(r.token)
    ensures r.after == After(INITIAL, steps).pane.cursor && !Aborted(After(INITIAL, steps), r)
  {
    AfterKeepsInv(INITIAL, steps);
  }

  /** Over every interleaving: the records shown are distinct places of the log in order; and,
      unless a later page was cut short (which the view announces), they are the newest `KEEP` of
      everything from the first page to the cursor. */
  lemma ShownOnceWithoutGaps(steps: seq<Step>)
    requires Runs(INITIAL, steps)
    ensures OnceInOrder(After(INITIAL, steps))
    ensures var s := After(INITIAL, steps);
            !s.gap && s.pane.cursor.Some? ==>
              && s.first <= s.pane.cursor.value <= |s.log|
              && s.pane.records == Last(s.log[s.first..s.pane.cursor.value], KEEP)
    ensures var s := After(INITIAL, steps); s.gap ==> s.pane.truncated
  {
    AfterKeepsInv(INITIAL, steps);
    var s := After(INITIAL, steps);
    hide After, Runs;
    if !s.gap && s.pane.cursor.Some? {
      AtSpan(s.log, [], s.first, s.pane.cursor.value);
      assert [] + s.places == s.places;
    }
  }
}
