/** The events the console holds for a run: packages/console/components/console.tsx,
    `mergeEvents`, the paging loop of `refreshCurrent` and the event-stream effect. */
module RunEvents {
  import opened Optional
  import opened Seqs

  /** One committed event; `number` is its `seq`, from 1. */
  datatype Event = Event(number: nat, body: string)

  function Number(e: Event): int { e.number }

  /** The server's events of one run: appended in the order of their numbers. */
  predicate IsLog(log: seq<Event>) {
    StrictlySorted(log, Number) && forall e :: e in log ==> 0 < e.number
  }

  function Top(events: seq<Event>, floor: nat): nat {
    if events == [] then floor else events[|events| - 1].number
  }

  /** The events of `log` numbered above `low` and up to `high`, in order. */
  function Between(log: seq<Event>, low: nat, high: nat): seq<Event> {
    if log == [] then []
    else
      var e := log[|log| - 1];
      Between(log[..|log| - 1], low, high) + (if low < e.number <= high then [e] else [])
  }

  // ---------- Merging a batch ----------

  function Highest(cursor: nat, batch: seq<Event>): nat {
    if batch == [] then cursor
    else
      var rest, e := Highest(cursor, batch[..|batch| - 1]), batch[|batch| - 1];
      if rest < e.number then e.number else rest
  }

  /** The events of `batch` whose numbers are not in `known`. */
  function Unknown(known: set<nat>, batch: seq<Event>): seq<Event> {
    if batch == [] then []
    else
      var e := batch[|batch| - 1];
      Unknown(known, batch[..|batch| - 1]) + (if e.number in known then [] else [e])
  }

  function Numbers(events: seq<Event>): set<nat> {
    set e | e in events :: e.number
  }

  function Merged(held: seq<Event>, batch: seq<Event>): seq<Event> {
    var additions := Unknown(Numbers(held), batch);
    if additions == [] then held else StableSort(held + additions, Number)
  }

  lemma {:induction false} BetweenIs(log: seq<Event>, low: nat, high: nat)
    requires IsLog(log)
    ensures IsLog(Between(log, low, high))
    ensures forall e :: e in Between(log, low, high) <==> e in log && low < e.number <= high
  {
    if log != [] {
      var front, last := log[..|log| - 1], log[|log| - 1];
      assert log == front + [last];
      BetweenIs(front, low, high);
    }
  }

  lemma {:induction false} UnknownIs(known: set<nat>, batch: seq<Event>)
    requires StrictlySorted(batch, Number)
    ensures StrictlySorted(Unknown(known, batch), Number)
    ensures forall e :: e in Unknown(known, batch) <==> e in batch && e.number !in known
  {
    if batch != [] {
      var front, last := batch[..|batch| - 1], batch[|batch| - 1];
      assert batch == front + [last];
      UnknownIs(known, front);
    }
  }

  lemma {:induction false} HighestIs(cursor: nat, batch: seq<Event>)
    requires StrictlySorted(batch, Number)
    ensures batch == [] ==> Highest(cursor, batch) == cursor
    ensures batch != [] ==> Highest(cursor, batch) == if cursor < Top(batch, 0) then Top(batch, 0) else cursor
  {
    if batch != [] { HighestIs(cursor, batch[..|batch| - 1]); }
  }

  /** In whatever order the batch comes: the highest of the cursor and the batch's numbers. */
  lemma {:induction false} HighestIsOneOfThem(cursor: nat, batch: seq<Event>)
    ensures cursor <= Highest(cursor, batch) && forall e :: e in batch ==> e.number <= Highest(cursor, batch)
    ensures Highest(cursor, batch) == cursor || exists e :: e in batch && e.number == Highest(cursor, batch)
  {
    if batch != [] {
      var front, last := batch[..|batch| - 1], batch[|batch| - 1];
      assert batch == front + [last];
      HighestIsOneOfThem(cursor, front);
    }
  }

  lemma {:induction false} UnknownOfAny(known: set<nat>, batch: seq<Event>)
    ensures forall e :: e in Unknown(known, batch) <==> e in batch && e.number !in known
  {
    if batch != [] {
      var front, last := batch[..|batch| - 1], batch[|batch| - 1];
      assert batch == front + [last];
      UnknownOfAny(known, front);
    }
  }

  /** In whatever order the batch comes: sorted once something is added, and nothing is lost. */
  lemma MergedOfAny(held: seq<Event>, batch: seq<Event>)
    ensures multiset(Merged(held, batch)) == multiset(held) + multiset(Unknown(Numbers(held), batch))
    ensures forall e :: e in Unknown(Numbers(held), batch) <==> e in batch && e.number !in Numbers(held)
    ensures Unknown(Numbers(held), batch) != [] || Sorted(held, Number) ==> Sorted(Merged(held, batch), Number)
  {
    UnknownOfAny(Numbers(held), batch);
    StableSortSorts(held + Unknown(Numbers(held), batch), Number);
  }

  lemma MergedHas(held: seq<Event>, batch: seq<Event>)
    requires StrictlySorted(held, Number) && StrictlySorted(batch, Number)
    ensures StrictlySorted(Merged(held, batch), Number)
    ensures forall e :: e in Merged(held, batch) <==> e in held || (e in batch && e.number !in Numbers(held))
  {
    var additions := Unknown(Numbers(held), batch);
    UnknownIs(Numbers(held), batch);
    var all := held + additions;
    forall i, j | 0 <= i < j < |all| ensures Number(all[i]) != Number(all[j]) {
      if i < |held| <= j {
        assert all[i] in held && all[j] in additions;
        assert all[i].number in Numbers(held);
      }
    }
    StableSortStrict(all, Number);
    StableSortKeeps(all, Number);
  }

  lemma SameNumberSameEvent(log: seq<Event>)
    requires IsLog(log)
    ensures forall d, e :: d in log && e in log && d.number == e.number ==> d == e
  {
    forall d, e | d in log && e in log && d.number == e.number ensures d == e {
      var i :| 0 <= i < |log| && log[i] == d;
      var j :| 0 <= j < |log| && log[j] == e;
      assert !(i < j) && !(j < i);
    }
  }

  /** Merging a segment that starts at or below the cursor leaves no gap and no repeat. */
  lemma MergeExtends(log: seq<Event>, cursor: nat, low: nat, high: nat)
    requires IsLog(log) && low <= cursor
    ensures Merged(Between(log, 0, cursor), Between(log, low, high))
         == Between(log, 0, if cursor < high then high else cursor)
  {
    var held, batch := Between(log, 0, cursor), Between(log, low, high);
    var top := if cursor < high then high else cursor;
    BetweenIs(log, 0, cursor);
    BetweenIs(log, low, high);
    BetweenIs(log, 0, top);
    MergedHas(held, batch);
    SameNumberSameEvent(log);
    forall e | e in batch && e.number in Numbers(held) ensures e in held {
      var h :| h in held && h.number == e.number;
    }
    StrictlySortedUnique(Merged(held, batch), Between(log, 0, top), Number);
  }

  // ---------- The page's store and the server's journal, updated in place ----------

  /** `eventSequences` and `events`, by run. */
  class EventStore {
    var cursors: map<string, nat>
    var events: map<string, seq<Event>>

    function Cursor(id: string): nat
      reads this
    {
      if id in cursors then cursors[id] else 0
    }

    function Held(id: string): seq<Event>
      reads this
    {
      if id in events then events[id] else []
    }

    /** The run's events are exactly the committed ones up to its cursor. */
    ghost predicate Follows(id: string, log: seq<Event>)
      reads this
    {
      Held(id) == Between(log, 0, Cursor(id)) && Cursor(id) <= Top(log, 0)
    }

    constructor ()
      ensures cursors == map[] && events == map[]
    {
      cursors, events := map[], map[];
    }

    method MergeEvents(id: string, batch: seq<Event>)
      modifies this
      ensures Cursor(id) == Highest(old(Cursor(id)), batch)
      ensures Held(id) == Merged(old(Held(id)), batch)
      ensures forall other :: other != id ==> Cursor(other) == old(Cursor(other)) && Held(other) == old(Held(other))
    {
      if batch == [] {
        return;
      }
      cursors := cursors[id := Highest(Cursor(id), batch)];
      var previous := Held(id);
      var additions := Unknown(Numbers(previous), batch);
      if additions != [] {
        events := events[id := StableSort(previous + additions, Number)];
      }
    }

    method MergeSegment(id: string, ghost log: seq<Event>, batch: seq<Event>, ghost low: nat)
      requires IsLog(log) && Follows(id, log)
      requires low <= Cursor(id) && batch != [] && batch == Between(log, low, Top(batch, low))
          && Top(batch, low) <= Top(log, 0)
      modifies this
      ensures Follows(id, log)
      ensures Cursor(id) == if old(Cursor(id)) < Top(batch, low) then Top(batch, low) else old(Cursor(id))
      ensures forall other :: other != id ==> Cursor(other) == old(Cursor(other)) && Held(other) == old(Held(other))
    {
      BetweenIs(log, low, Top(batch, low));
      HighestIs(Cursor(id), batch);
      MergeExtends(log, Cursor(id), low, Top(batch, low));
      MergeEvents(id, batch);
    }
  }

  lemma {:induction false} TopIsHighest(log: seq<Event>)
    requires IsLog(log)
    ensures forall e :: e in log ==> e.number <= Top(log, 0)
  {
    forall e | e in log ensures e.number <= Top(log, 0) {
      var i :| 0 <= i < |log| && log[i] == e;
    }
  }

  lemma NoEvents(events: seq<Event>)
    requires forall e :: e !in events
    ensures events == []
  {
    HasAnElement(events);
  }

  lemma {:induction false} BetweenEndsAt(log: seq<Event>, low: nat, e: Event)
    requires IsLog(log) && e in log && low < e.number
    ensures Between(log, low, e.number) != [] && Top(Between(log, low, e.number), low) == e.number
    ensures e.number <= Top(log, 0)
  {
    BetweenIs(log, low, e.number);
    TopIsHighest(log);
    TopIsHighest(Between(log, low, e.number));
    assert e in Between(log, low, e.number);
    var last := Between(log, low, e.number)[|Between(log, low, e.number)| - 1];
    assert last in Between(log, low, e.number);
  }

  /** The server's committed events of one run; other clients append while a page is read. */
  class Journal {
    var log: seq<Event>

    ghost predicate Valid()
      reads this
    {
      IsLog(log)
    }

    constructor ()
      ensures Valid() && log == []
    {
      log := [];
    }

    method Append(body: string)
      requires Valid()
      modifies this
      ensures Valid() && log == old(log) + [Event(Top(old(log), 0) + 1, body)]
    {
      TopIsHighest(log);
      log := log + [Event(Top(log, 0) + 1, body)];
    }

    /** A page: some of the events after `after`, in order, and at least one when there are any. */
    method Page(after: nat) returns (batch: seq<Event>)
      requires Valid()
      ensures batch == Between(log, after, Top(batch, after))
      ensures batch == [] ==> Top(log, 0) <= after
      ensures after <= Top(batch, after) && (batch != [] ==> after < Top(batch, after) <= Top(log, 0))
    {
      TopIsHighest(log);
      if Top(log, 0) <= after {
        batch := [];
        BetweenIs(log, after, after);
        NoEvents(Between(log, after, after));
      } else {
        var e :| e in log && after < e.number;
        batch := Between(log, after, e.number);
        BetweenEndsAt(log, after, e);
      }
    }
  }

  /** An append-only log keeps what was already in it. */
  lemma {:induction false} BetweenGrows(log: seq<Event>, longer: seq<Event>, low: nat, high: nat)
    requires IsLog(longer) && log <= longer && high <= Top(log, 0)
    ensures Between(longer, low, high) == Between(log, low, high)
    ensures Top(log, 0) <= Top(longer, 0)
    decreases |longer|
  {
    if |log| < |longer| {
      var front := longer[..|longer| - 1];
      TopIsHighest(longer);
      var last := longer[|longer| - 1];
      assert last in longer;
      if log != [] { assert Number(log[|log| - 1]) == Number(longer[|log| - 1]) < Number(last); }
      BetweenGrows(log, front, low, high);
    } else {
      assert log == longer;
    }
  }

  /** What others do while a page is on its way: they commit events, and other readers of the
      same run merge theirs. */
  method Meanwhile(store: EventStore, journal: Journal, id: string)
    requires journal.Valid() && store.Follows(id, journal.log)
    modifies store, journal
    ensures journal.Valid() && store.Follows(id, journal.log)
    ensures old(journal.log) <= journal.log && old(store.Cursor(id)) <= store.Cursor(id)
    ensures forall other :: other != id ==> store.Held(other) == old(store.Held(other))
  {
    var times: nat :| true;
    for k := 0 to times
      invariant journal.Valid() && store.Follows(id, journal.log)
      invariant old(journal.log) <= journal.log && old(store.Cursor(id)) <= store.Cursor(id)
      invariant forall other :: other != id ==> store.Held(other) == old(store.Held(other))
    {
      if * {
        var body: string :| true;
        ghost var before := journal.log;
        journal.Append(body);
        BetweenGrows(before, journal.log, 0, store.Cursor(id));
      } else {
        var low: nat :| low <= store.Cursor(id);
        var batch := journal.Page(low);
        if batch != [] {
          store.MergeSegment(id, journal.log, batch, low);
        }
      }
    }
  }

  /** A page of `log` after `after`: some of the events that follow, in order, and at least one
      when there are any. */
  predicate IsPage(log: seq<Event>, after: nat, page: seq<Event>) {
    && page == Between(log, after, Top(page, after)) && after <= Top(page, after)
    && (page == [] ==> Top(log, 0) <= after)
    && (page != [] ==> after < Top(page, after) <= Top(log, 0))
  }

  /** The requests of one refresh: the cursors they asked for, and the pages that were answered.
      The requests numbered in `fails` fail, or are aborted. */
  class Requests {
    var asked: seq<nat>
    var pages: seq<seq<Event>>
    const fails: set<nat>

    constructor (fails: set<nat>)
      ensures asked == [] && pages == [] && this.fails == fails
    {
      asked, pages, this.fails := [], [], fails;
    }

    /** `api.events`. */
    method Events(journal: Journal, after: nat) returns (page: Option<seq<Event>>)
      requires journal.Valid()
      modifies this
      ensures asked == old(asked) + [after]
      ensures page.None? <==> |old(asked)| in fails
      ensures page.Some? ==> IsPage(journal.log, after, page.value)
      ensures pages == if page.Some? then old(pages) + [page.value] else old(pages)
    {
      var number := |asked|;
      asked := asked + [after];
      if number in fails {
        return None;
      }
      var batch := journal.Page(after);
      pages := pages + [batch];
      page := Some(batch);
    }
  }

  /** Each request asks for what comes after the page before it; the first starts at `cursor`. */
  ghost predicate Continues(cursor: nat, asked: seq<nat>, pages: seq<seq<Event>>) {
    && |pages| <= |asked|
    && (asked != [] ==> asked[0] == cursor)
    && (forall k :: 0 <= k < |asked| - 1 ==> k < |pages| && pages[k] != [] && Top(pages[k], 0) == asked[k + 1])
  }

  /** The events of `pages` are committed, and numbered up to `cursor`. */
  ghost predicate AreHeld(pages: seq<seq<Event>>, log: seq<Event>, cursor: nat) {
    forall k :: 0 <= k < |pages| ==>
      Top(pages[k], 0) <= cursor && forall e :: e in pages[k] ==> e in log && e.number <= cursor
  }

  lemma StillHeld(pages: seq<seq<Event>>, log: seq<Event>, longer: seq<Event>, cursor: nat, later: nat)
    requires AreHeld(pages, log, cursor) && log <= longer && cursor <= later
    ensures AreHeld(pages, longer, later)
  {
    forall e | e in log ensures e in longer {
      var i :| 0 <= i < |log| && log[i] == e;
      assert longer[i] == e;
    }
  }

  lemma NothingHeld(log: seq<Event>, cursor: nat)
    ensures AreHeld([], log, cursor)
  {
  }

  lemma OnePageMore(pages: seq<seq<Event>>, page: seq<Event>, log: seq<Event>, after: nat, cursor: nat)
    requires IsLog(log) && AreHeld(pages, log, cursor)
    requires page != [] && page == Between(log, after, Top(page, after)) && Top(page, after) <= cursor
    ensures AreHeld(pages + [page], log, cursor)
  {
    BetweenIs(log, after, Top(page, after));
  }

  lemma PagesAreHeld(pages: seq<seq<Event>>, log: seq<Event>, cursor: nat)
    requires IsLog(log) && AreHeld(pages, log, cursor)
    ensures forall k :: 0 <= k < |pages| ==> Top(pages[k], 0) <= cursor
    ensures forall k :: 0 <= k < |pages| ==> forall e :: e in pages[k] ==> e in Between(log, 0, cursor)
  {
    BetweenIs(log, 0, cursor);
  }

  lemma PageIs(log: seq<Event>, after: nat, page: seq<Event>)
    requires IsPage(log, after, page)
    ensures page == Between(log, after, Top(page, after)) && (page == [] ==> Top(log, 0) <= after)
    ensures page != [] ==> after < Top(page, after) == Top(page, 0) <= Top(log, 0)
  {
  }

  lemma NoneMore(pages: seq<seq<Event>>, log: seq<Event>, cursor: nat)
    requires AreHeld(pages, log, cursor)
    ensures AreHeld(pages + [[]], log, cursor)
  {
  }

  /** One request of the loop, and the merge of its page. Others are at work while it is out. */
  method ReadPage(store: EventStore, journal: Journal, requests: Requests, id: string, cursor: nat)
    returns (page: Option<seq<Event>>)
    requires journal.Valid() && store.Follows(id, journal.log) && cursor <= store.Cursor(id)
    requires AreHeld(requests.pages, journal.log, store.Cursor(id))
    modifies store, journal, requests
    ensures journal.Valid() && store.Follows(id, journal.log) && old(journal.log) <= journal.log
    ensures old(store.Cursor(id)) <= store.Cursor(id) && Top(old(journal.log), 0) <= Top(journal.log, 0)
    ensures forall other :: other != id ==> store.Held(other) == old(store.Held(other))
    ensures requests.asked == old(requests.asked) + [cursor]
    ensures page.None? <==> |old(requests.asked)| in requests.fails
    ensures requests.pages == if page.Some? then old(requests.pages) + [page.value] else old(requests.pages)
    ensures page == Some([]) ==> Top(old(journal.log), 0) <= cursor
    ensures page.Some? && page.value != [] ==> cursor < Top(page.value, 0) <= store.Cursor(id)
    ensures AreHeld(requests.pages, journal.log, store.Cursor(id))
  {
    hide Between, IsLog, AreHeld, IsPage;
    ghost var pages, held := requests.pages, store.Cursor(id);
    page := requests.Events(journal, cursor);
    ghost var read := journal.log;
    Meanwhile(store, journal, id);
    StillHeld(pages, read, journal.log, held, store.Cursor(id));
    BetweenGrows(read, journal.log, 0, 0);
    if page.Some? {
      var batch := page.value;
      PageIs(read, cursor, batch);
      if batch == [] {
        NoneMore(pages, journal.log, store.Cursor(id));
      } else {
        BetweenGrows(read, journal.log, cursor, Top(batch, cursor));
        held := store.Cursor(id);
        store.MergeSegment(id, journal.log, batch, cursor);
        StillHeld(pages, journal.log, journal.log, held, store.Cursor(id));
        OnePageMore(pages, batch, journal.log, cursor, store.Cursor(id));
      }
    }
  }

  /** The paging so far, between two requests: none has failed, and the next one asks for what
      comes after `cursor`. */
  ghost predicate PagedSoFar(start: nat, cursor: nat, lastSeq: nat, asked: seq<nat>, pages: seq<seq<Event>>,
                             fails: set<nat>)
  {
    && |pages| == |asked| && Continues(start, asked, pages) && start <= cursor
    && cursor == (if pages == [] then start else Top(pages[|pages| - 1], 0))
    && (forall k :: 0 <= k < |asked| ==> k !in fails && asked[k] < lastSeq && pages[k] != [])
  }

  lemma AskedOneMore(start: nat, cursor: nat, asked: seq<nat>, pages: seq<seq<Event>>, page: seq<Event>)
    requires |pages| == |asked| && Continues(start, asked, pages)
    requires cursor == (if pages == [] then start else Top(pages[|pages| - 1], 0))
    requires pages != [] ==> pages[|pages| - 1] != []
    ensures Continues(start, asked + [cursor], pages)
    ensures Continues(start, asked + [cursor], pages + [page])
  {
    hide Top;
    forall k | 0 <= k < |asked|
      ensures pages[k] != [] && Top(pages[k], 0) == (asked + [cursor])[k + 1] && (pages + [page])[k] == pages[k]
    {
      assert k < |asked| - 1 ==> Top(pages[k], 0) == asked[k + 1];
    }
  }

  lemma OneRequestMore(start: nat, cursor: nat, lastSeq: nat, asked: seq<nat>, pages: seq<seq<Event>>, fails: set<nat>,
                       page: seq<Event>)
    requires PagedSoFar(start, cursor, lastSeq, asked, pages, fails) && cursor < lastSeq
    ensures Continues(start, asked + [cursor], pages)
    ensures page != [] && cursor < Top(page, 0) && |asked| !in fails ==>
              PagedSoFar(start, Top(page, 0), lastSeq, asked + [cursor], pages + [page], fails)
  {
    hide Continues, Top;
    AskedOneMore(start, cursor, asked, pages, page);
  }

  lemma NoRequestYet(start: nat, lastSeq: nat, fails: set<nat>)
    ensures PagedSoFar(start, start, lastSeq, [], [], fails)
  {
  }

  lemma PagingEnds(start: nat, cursor: nat, lastSeq: nat, asked: seq<nat>, pages: seq<seq<Event>>, fails: set<nat>)
    requires PagedSoFar(start, cursor, lastSeq, asked, pages, fails)
    ensures |pages| == |asked| && Continues(start, asked, pages)
    ensures forall k :: 0 <= k < |asked| ==> k !in fails && asked[k] < lastSeq
  {
  }

  /** The paging loop of one refresh; `lastSeq` is the run's as the refresh read it. It fails exactly
      when a request does, which is then its last; without that, all events up to `lastSeq` are held.
      Every page that was answered is in the store when it returns. */
  method CatchUp(store: EventStore, journal: Journal, requests: Requests, id: string, lastSeq: nat)
    returns (failed: bool)
    requires journal.Valid() && store.Follows(id, journal.log) && lastSeq <= Top(journal.log, 0)
    requires requests.asked == [] && requests.pages == []
    modifies store, journal, requests
    ensures journal.Valid() && store.Follows(id, journal.log) && old(store.Cursor(id)) <= store.Cursor(id)
    ensures failed <==> exists k :: 0 <= k < |requests.asked| && k in requests.fails
    ensures |requests.pages| == if failed then |requests.asked| - 1 else |requests.asked|
    ensures !failed ==> lastSeq <= store.Cursor(id)
    ensures Continues(old(store.Cursor(id)), requests.asked, requests.pages)
    ensures forall k :: 0 <= k < |requests.asked| ==> requests.asked[k] < lastSeq
    ensures forall k :: 0 <= k < |requests.pages| ==> Top(requests.pages[k], 0) <= store.Cursor(id)
    ensures forall k :: 0 <= k < |requests.pages| ==> forall e :: e in requests.pages[k] ==> e in store.Held(id)
    ensures forall other :: other != id ==> store.Held(other) == old(store.Held(other))
  {
    hide Between, IsLog, AreHeld, PagedSoFar, Continues;
    ghost var start := store.Cursor(id);
    NothingHeld(journal.log, start);
    NoRequestYet(start, lastSeq, requests.fails);
    var cursor := store.Cursor(id);
    while cursor < lastSeq
      invariant journal.Valid() && store.Follows(id, journal.log) && lastSeq <= Top(journal.log, 0)
      invariant start <= cursor <= store.Cursor(id)
      invariant PagedSoFar(start, cursor, lastSeq, requests.asked, requests.pages, requests.fails)
      invariant AreHeld(requests.pages, journal.log, store.Cursor(id))
      invariant forall other :: other != id ==> store.Held(other) == old(store.Held(other))
      decreases lastSeq - cursor
    {
      ghost var asked, pages := requests.asked, requests.pages;
      PagingEnds(start, cursor, lastSeq, asked, pages, requests.fails);
      var page := ReadPage(store, journal, requests, id, cursor);
      OneRequestMore(start, cursor, lastSeq, asked, pages, requests.fails, page.Or([]));
      if page.None? {
        PagesAreHeld(pages, journal.log, store.Cursor(id));
        assert requests.asked[|asked|] == cursor;
        return true;
      }
      var batch := page.value;
      if batch == [] {
        break;
      }
      cursor := batch[|batch| - 1].number;
    }
    PagingEnds(start, cursor, lastSeq, requests.asked, requests.pages, requests.fails);
    PagesAreHeld(requests.pages, journal.log, store.Cursor(id));
    return false;
  }

  // ---------- Polls and streams together, over every interleaving ----------

  /** A poll or a stream: it reads on from `from` and holds events not merged yet. A poll merges
      a page when its response arrives; a stream merges what came in 40 ms, unless it was aborted. */
  datatype Reader = Reader(from: nat, pending: seq<Event>) {
    function Position(): nat { Top(pending, from) }
  }

  datatype System = System(log: seq<Event>, cursor: nat, held: seq<Event>, readers: map<nat, Reader>)

  datatype Step =
    | Append(event: Event)
    | Open(reader: nat)
    | Receive(reader: nat, last: Event)
    | Flush(reader: nat)
    | Abort(reader: nat)

  predicate Enabled(s: System, step: Step) {
    match step
    case Append(event) => Top(s.log, 0) < event.number
    case Open(k) => k !in s.readers
    case Receive(k, last) => k in s.readers && last in s.log && s.readers[k].Position() < last.number
    case Flush(k) => k in s.readers
    case Abort(k) => k in s.readers
  }

  function Next(s: System, step: Step): System
    requires Enabled(s, step)
  {
    match step
    case Append(event) => s.(log := s.log + [event])
    case Open(k) => s.(readers := s.readers[k := Reader(s.cursor, [])])
    case Receive(k, last) =>
      var reader := s.readers[k];
      var more := Between(s.log, reader.Position(), last.number);
      s.(readers := s.readers[k := reader.(pending := reader.pending + more)])
    case Flush(k) =>
      var reader := s.readers[k];
      if reader.pending == [] then s
      else s.(cursor := Highest(s.cursor, reader.pending), held := Merged(s.held, reader.pending),
              readers := s.readers[k := Reader(reader.Position(), [])])
    case Abort(k) => s.(readers := s.readers - {k})
  }

  predicate Runs(s: System, steps: seq<Step>)
    decreases steps
  {
    steps == [] || (Enabled(s, steps[0]) && Runs(Next(s, steps[0]), steps[1..]))
  }

  function After(s: System, steps: seq<Step>): System
    requires Runs(s, steps)
    decreases steps
  {
    if steps == [] then s else After(Next(s, steps[0]), steps[1..])
  }

  /** A reader starts at or below the cursor and holds exactly what comes next. */
  predicate InStep(log: seq<Event>, cursor: nat, reader: Reader) {
    && reader.from <= cursor
    && reader.pending == Between(log, reader.from, reader.Position())
    && reader.from <= reader.Position() <= Top(log, 0)
  }

  predicate Inv(s: System) {
    && IsLog(s.log) && s.cursor <= Top(s.log, 0)
    && s.held == Between(s.log, 0, s.cursor)
    && (forall k :: k in s.readers ==> InStep(s.log, s.cursor, s.readers[k]))
  }

  lemma BetweenNone(low: nat, high: nat)
    ensures Between([], low, high) == []
  {
  }

  lemma BetweenOneMore(log: seq<Event>, low: nat, high: nat)
    requires log != []
    ensures var front, last := log[..|log| - 1], log[|log| - 1];
            Between(log, low, high) == Between(front, low, high) + (if low < last.number <= high then [last] else [])
  {
  }

  lemma FrontIsLog(log: seq<Event>)
    requires IsLog(log) && log != []
    ensures IsLog(log[..|log| - 1])
  {
  }

  lemma JoinsOneMore(a: seq<Event>, b: seq<Event>, c: seq<Event>)
    ensures a + [] == a && a + (b + c) == (a + b) + c
  {
  }

  lemma BelowTheLast(log: seq<Event>)
    requires IsLog(log) && log != []
    ensures forall e :: e in log[..|log| - 1] ==> e.number < Top(log, 0)
  {
    forall e | e in log[..|log| - 1] ensures e.number < Top(log, 0) {
      var i :| 0 <= i < |log| - 1 && log[i] == e;
    }
  }

  /** Below the last event, nothing of the log is above the last event's number. */
  lemma NothingAbove(log: seq<Event>, middle: nat, high: nat)
    requires IsLog(log) && log != [] && log[|log| - 1].number <= middle
    ensures Between(log[..|log| - 1], middle, high) == []
  {
    FrontIsLog(log);
    BetweenIs(log[..|log| - 1], middle, high);
    BelowTheLast(log);
    hide Between, IsLog;
    NoEvents(Between(log[..|log| - 1], middle, high));
  }

  lemma {:induction false} BetweenJoins(log: seq<Event>, low: nat, middle: nat, high: nat)
    requires IsLog(log) && low <= middle <= high
    ensures Between(log, low, middle) + Between(log, middle, high) == Between(log, low, high)
  {
    hide IsLog, Between;
    BetweenNone(low, middle);
    BetweenNone(middle, high);
    BetweenNone(low, high);
    if log != [] {
      var front, last := log[..|log| - 1], log[|log| - 1];
      FrontIsLog(log);
      BetweenJoins(front, low, middle, high);
      BetweenOneMore(log, low, middle);
      BetweenOneMore(log, middle, high);
      BetweenOneMore(log, low, high);
      if last.number <= middle {
        NothingAbove(log, middle, high);
      } else {
        var end := if last.number <= high then [last] else [];
        JoinsOneMore(Between(front, low, middle), Between(front, middle, high), end);
      }
    }
  }

  lemma BetweenIgnoresLater(log: seq<Event>, e: Event, low: nat, high: nat)
    requires high < e.number
    ensures Between(log + [e], low, high) == Between(log, low, high)
  {
    assert (log + [e])[..|log|] == log;
  }

  lemma AppendKeepsInv(s: System, event: Event)
    requires Inv(s) && Enabled(s, Append(event))
    ensures Inv(Next(s, Append(event)))
  {
    TopIsHighest(s.log);
    var log := s.log + [event];
    BetweenIgnoresLater(s.log, event, 0, s.cursor);
    forall k | k in s.readers ensures InStep(log, s.cursor, s.readers[k]) {
      BetweenIgnoresLater(s.log, event, s.readers[k].from, s.readers[k].Position());
    }
  }

  lemma ReceiveKeepsInStep(log: seq<Event>, cursor: nat, reader: Reader, last: Event)
    requires IsLog(log) && InStep(log, cursor, reader) && last in log && reader.Position() < last.number
    ensures InStep(log, cursor, reader.(pending := reader.pending + Between(log, reader.Position(), last.number)))
  {
    BetweenJoins(log, reader.from, reader.Position(), last.number);
    BetweenEndsAt(log, reader.Position(), last);
  }

  lemma NothingBetween(log: seq<Event>, at: nat)
    requires IsLog(log)
    ensures Between(log, at, at) == []
  {
    BetweenIs(log, at, at);
    NoEvents(Between(log, at, at));
  }

  lemma FlushKeepsInv(s: System, k: nat)
    requires Inv(s) && Enabled(s, Flush(k))
    ensures Inv(Next(s, Flush(k))) && s.cursor <= Next(s, Flush(k)).cursor
  {
    var reader := s.readers[k];
    if reader.pending != [] {
      BetweenIs(s.log, reader.from, reader.Position());
      HighestIs(s.cursor, reader.pending);
      MergeExtends(s.log, s.cursor, reader.from, reader.Position());
      NothingBetween(s.log, reader.Position());
    }
  }

  lemma NextKeepsInv(s: System, step: Step)
    requires Inv(s) && Enabled(s, step)
    ensures Inv(Next(s, step))
    ensures s.cursor <= Next(s, step).cursor && s.log <= Next(s, step).log
  {
    match step
    case Append(event) => AppendKeepsInv(s, event);
    case Open(k) => NothingBetween(s.log, s.cursor);
    case Receive(k, last) => ReceiveKeepsInStep(s.log, s.cursor, s.readers[k], last);
    case Flush(k) => FlushKeepsInv(s, k);
    case Abort(k) =>
  }

  /** A reader opens at the cursor with nothing held, and is gone once aborted; an append is the log's new end.
      The other readers stay as they are. */
  lemma ReadersStep(s: System, step: Step)
    requires Enabled(s, step)
    ensures var t := Next(s, step);
            && t.log == (if step.Append? then s.log + [step.event] else s.log)
            && (step.Append? ==> t.readers == s.readers)
            && (step.Open? ==> step.reader in t.readers && t.readers[step.reader] == Reader(s.cursor, []))
            && (step.Abort? ==> step.reader !in t.readers)
            && (!step.Append? ==>
                  forall k :: k in s.readers && k != step.reader ==> k in t.readers && t.readers[k] == s.readers[k])
  {
    hide Between, Highest, Merged, Reader.Position;
  }

  /** A reader receives the events that come next, up to the last one. */
  lemma ReceiveStep(s: System, k: nat, last: Event)
    requires IsLog(s.log) && Enabled(s, Receive(k, last))
    ensures var t, reader := Next(s, Receive(k, last)), s.readers[k];
            && k in t.readers && t.readers[k].from == reader.from && reader.pending <= t.readers[k].pending
            && t.readers[k].Position() == last.number
            && forall e :: e in s.log && reader.Position() < e.number <= last.number ==> e in t.readers[k].pending
  {
    var reader := s.readers[k];
    BetweenIs(s.log, reader.Position(), last.number);
    BetweenEndsAt(s.log, reader.Position(), last);
    hide Between, IsLog;
  }

  /** What a reader holds is shown by its flush, and only waits until then. */
  lemma FlushShows(s: System, k: nat)
    requires Inv(s) && Enabled(s, Flush(k))
    ensures var t, position := Next(s, Flush(k)), s.readers[k].Position();
            && t.cursor == (if s.cursor < position then position else s.cursor)
            && t.readers == s.readers[k := Reader(position, [])] && t.log == s.log
            && forall e :: e in s.readers[k].pending ==> e in t.held
  {
    var reader := s.readers[k];
    NextKeepsInv(s, Flush(k));
    BetweenIs(s.log, reader.from, reader.Position());
    if reader.pending == [] {
      assert s.readers[k := reader] == s.readers;
    } else {
      HighestIs(s.cursor, reader.pending);
      BetweenIs(s.log, 0, Next(s, Flush(k)).cursor);
    }
  }

  /** An event that a reader receives is held after its next flush. */
  lemma ReceivedIsShown(s: System, k: nat, last: Event)
    requires Inv(s) && Enabled(s, Receive(k, last))
    ensures var t := Next(s, Receive(k, last)); Enabled(t, Flush(k)) && last in Next(t, Flush(k)).held
  {
    var t := Next(s, Receive(k, last));
    NextKeepsInv(s, Receive(k, last));
    BetweenIs(s.log, s.readers[k].Position(), last.number);
    assert last in Between(s.log, s.readers[k].Position(), last.number);
    FlushShows(t, k);
  }

  lemma {:induction false} AfterKeepsInv(s: System, steps: seq<Step>)
    requires Inv(s) && Runs(s, steps)
    ensures Inv(After(s, steps)) && s.cursor <= After(s, steps).cursor
    decreases steps
  {
    if steps != [] {
      NextKeepsInv(s, steps[0]);
      AfterKeepsInv(Next(s, steps[0]), steps[1..]);
    }
  }

  /** From an empty page, however polls, stream batches, aborts and reconnects interleave: the
      held events are exactly the committed ones up to the cursor, in order and once each; and
      the cursor never goes back. */
  lemma HeldAreTheCommitted(log: seq<Event>, steps: seq<Step>, more: seq<Step>)
    requires IsLog(log)
    requires var s := System(log, 0, [], map[]); Runs(s, steps) && Runs(After(s, steps), more)
    ensures var t := After(System(log, 0, [], map[]), steps);
            && t.held == Between(t.log, 0, t.cursor) && StrictlySorted(t.held, Number)
            && (forall e :: e in t.held <==> e in t.log && e.number <= t.cursor)
            && t.cursor <= After(t, more).cursor
  {
    var s := System(log, 0, [], map[]);
    NothingBetween(log, 0);
    AfterKeepsInv(s, steps);
    var t := After(s, steps);
    BetweenIs(t.log, 0, t.cursor);
    AfterKeepsInv(t, more);
  }
}
