/** Reading a Chat Completions answer: conformance/protocols/clients.ts, `chatConversation`.
    A stream's deltas are assembled in place; the whole answer is read at once. */
module ChatStream {
  import opened CodeUnits
  import opened Optional

  datatype Usage = Usage(prompt: nat, completion: nat, cached: Option<nat>)

  /** What the stream sends. */
  datatype CallDelta = CallDelta(index: nat, id: Option<CodeText>, name: Option<CodeText>, arguments: Option<CodeText>)
  datatype Choice = Choice(content: Option<CodeText>, reasoning: Option<CodeText>, calls: seq<CallDelta>,
                           finish: Option<CodeText>)
  datatype Chunk = Chunk(usage: Option<Usage>, choices: seq<Choice>)

  /** What a whole answer holds. */
  datatype MessageCall = MessageCall(isFunction: bool, id: CodeText, name: CodeText, arguments: CodeText)
  datatype Message = Message(content: Option<CodeText>, reasoning: Option<CodeText>, calls: seq<MessageCall>,
                             finish: CodeText)
  datatype Completion = Completion(choices: seq<Message>, usage: Option<Usage>)

  /** A call as it is assembled; an index no delta named leaves a hole (`None`) in the list. */
  datatype Call = Call(id: Option<CodeText>, name: CodeText, arguments: CodeText)

  datatype Answer = Answer(text: CodeText, reasoning: CodeText, calls: seq<Option<Call>>, finish: CodeText,
                           usage: Option<Usage>)

  const BLANK := Answer([], [], [], [], None)
  const BLANK_CALL := Call(None, [], [])

  predicate Truthy(text: Option<CodeText>) { text.Some? && text.value != [] }

  // ---------- The streaming branch, step by step ----------

  function Holes(n: nat): seq<Option<Call>> { seq(n, _ => None) }

  /** `calls[index] ??= blank`. */
  function Touched(calls: seq<Option<Call>>, index: nat): (r: seq<Option<Call>>)
    ensures index < |r| && r[index].Some?
  {
    var grown := if index < |calls| then calls else calls + Holes(index + 1 - |calls|);
    if grown[index].Some? then grown else grown[index := Some(BLANK_CALL)]
  }

  function Extended(call: Call, d: CallDelta): Call {
    Call(if Truthy(d.id) then d.id else call.id, call.name + d.name.Or([]), call.arguments + d.arguments.Or([]))
  }

  function WithDelta(calls: seq<Option<Call>>, d: CallDelta): seq<Option<Call>> {
    var touched := Touched(calls, d.index);
    touched[d.index := Some(Extended(touched[d.index].value, d))]
  }

  function WithDeltas(calls: seq<Option<Call>>, deltas: seq<CallDelta>): seq<Option<Call>> {
    if deltas == [] then calls else WithDelta(WithDeltas(calls, deltas[..|deltas| - 1]), deltas[|deltas| - 1])
  }

  function WithChoice(a: Answer, c: Choice): Answer {
    Answer(a.text + c.content.Or([]), a.reasoning + c.reasoning.Or([]), WithDeltas(a.calls, c.calls),
           if Truthy(c.finish) then c.finish.value else a.finish, a.usage)
  }

  function WithChoices(a: Answer, choices: seq<Choice>): Answer {
    if choices == [] then a else WithChoice(WithChoices(a, choices[..|choices| - 1]), choices[|choices| - 1])
  }

  function WithChunk(a: Answer, chunk: Chunk): Answer {
    WithChoices(if chunk.usage.Some? then a.(usage := chunk.usage) else a, chunk.choices)
  }

  function Streamed(chunks: seq<Chunk>): Answer {
    if chunks == [] then BLANK else WithChunk(Streamed(chunks[..|chunks| - 1]), chunks[|chunks| - 1])
  }

  // ---------- The whole-response branch ----------

  function FunctionCalls(calls: seq<MessageCall>): seq<Option<Call>> {
    if calls == [] then []
    else
      var last := calls[|calls| - 1];
      FunctionCalls(calls[..|calls| - 1]) +
      (if last.isFunction then [Some(Call(Some(last.id), last.name, last.arguments))] else [])
  }

  function Whole(completion: Completion): Option<Answer> {
    if completion.choices == [] then None
    else
      var m := completion.choices[0];
      Some(Answer(m.content.Or([]), m.reasoning.Or([]), FunctionCalls(m.calls), m.finish, completion.usage))
  }

  // ---------- The conversation ----------

  /** One entry of the native transcript. */
  datatype Entry =
    | User(text: CodeText, image: Option<CodeText>)
    | Tool(callId: CodeText, output: CodeText)
    | Assistant(content: Option<CodeText>, calls: seq<Option<Call>>, sentBack: Option<CodeText>)

  function Named(call: Option<Call>): Option<Call> {
    if call.None? then None else Some(call.value.(id := Some(call.value.id.Or([]))))
  }

  function Recorded(a: Answer): Entry {
    Assistant(if a.text == [] then None else Some(a.text),
              seq(|a.calls|, k requires 0 <= k < |a.calls| => Named(a.calls[k])),
              if a.reasoning != [] && a.calls != [] then Some(a.reasoning) else None)
  }

  /** The transcript's entry for an answer: all its calls, in order, by name and arguments, with the id
      that was read or an empty one; its text unless that is empty; and its reasoning when there are
      calls to answer. */
  ghost predicate Tells(entry: Entry, a: Answer) {
    && entry.Assistant? && |entry.calls| == |a.calls|
    && (forall i :: 0 <= i < |a.calls| ==> (entry.calls[i].Some? <==> a.calls[i].Some?))
    && (forall i :: 0 <= i < |a.calls| && a.calls[i].Some? ==>
          var told, call := entry.calls[i].value, a.calls[i].value;
          && told.name == call.name && told.arguments == call.arguments
          && (call.id.Some? ==> told.id == call.id) && (call.id.None? ==> told.id == Some([])))
    && (entry.content.None? <==> a.text == []) && (entry.content.Some? ==> entry.content.value == a.text)
    && (entry.sentBack.Some? <==> a.reasoning != [] && a.calls != [])
    && (entry.sentBack.Some? ==> entry.sentBack.value == a.reasoning)
  }

  lemma RecordedTells(a: Answer)
    ensures Tells(Recorded(a), a)
  {
  }

  /** `pushed` was added to the transcript, and then the entry for the answer, if there was one. */
  ghost predicate Exchanged(before: seq<Entry>, after: seq<Entry>, pushed: seq<Entry>, a: Option<Answer>) {
    && before + pushed <= after && |after| == |before| + |pushed| + (if a.Some? then 1 else 0)
    && (a.Some? ==> Tells(after[|after| - 1], a.value))
  }

  /** A model's replies, as functions of the transcript it is sent. */
  datatype Replies = Replies(chunks: seq<Entry> -> seq<Chunk>, completion: seq<Entry> -> Completion) {
    function Reply(stream: bool, messages: seq<Entry>): Option<Answer> {
      if stream then Some(Streamed(chunks(messages))) else Whole(completion(messages))
    }
  }

  datatype Request = UserTurn(text: Option<CodeText>, image: Option<CodeText>) | Results(results: seq<(Call, CodeText)>)

  function ToolEntries(results: seq<(Call, CodeText)>): seq<Entry> {
    if results == [] then []
    else
      var last := results[|results| - 1];
      ToolEntries(results[..|results| - 1]) + [Tool(last.0.id.Or([]), last.1)]
  }

  lemma {:induction false} ToolEntriesAre(results: seq<(Call, CodeText)>)
    ensures |ToolEntries(results)| == |results|
    ensures forall i :: 0 <= i < |results| ==> ToolEntries(results)[i] == Tool(results[i].0.id.Or([]), results[i].1)
  {
    if results != [] {
      ToolEntriesAre(results[..|results| - 1]);
    }
  }

  lemma NoResultYet()
    ensures ToolEntries([]) == []
  {
  }

  lemma OneResultMore(results: seq<(Call, CodeText)>, i: nat)
    requires i < |results|
    ensures ToolEntries(results[..i + 1]) ==
              ToolEntries(results[..i]) + [Tool(results[i].0.id.Or([]), results[i].1)]
  {
    assert results[..i + 1][..i] == results[..i];
  }

  /** What `ask` and `answer` push before they send. */
  function Entries(request: Request): seq<Entry> {
    match request
    case UserTurn(text, image) => if text.Some? then [User(text.value, image)] else []
    case Results(results) => ToolEntries(results)
  }

  /** A conversation so far; not `going` once an answer had no choice. */
  datatype Talk = Talk(messages: seq<Entry>, answers: seq<Answer>, going: bool)

  function Talked(next: seq<Answer> -> Request, modes: seq<bool>, replies: Replies): Talk {
    if modes == [] then Talk([], [], true)
    else
      var n := |modes| - 1;
      var before := Talked(next, modes[..n], replies);
      if !before.going then before
      else
        var sent := before.messages + Entries(next(before.answers));
        var a := replies.Reply(modes[n], sent);
        if a.None? then Talk(sent, before.answers, false)
        else Talk(sent + [Recorded(a.value)], before.answers + [a.value], true)
  }

  /** The innermost loop: `calls[call.index] ??= ...` and its three updates. */
  method AddDeltas(start: seq<Option<Call>>, deltas: seq<CallDelta>) returns (calls: seq<Option<Call>>)
    ensures calls == WithDeltas(start, deltas)
  {
    calls := start;
    for i := 0 to |deltas|
      invariant calls == WithDeltas(start, deltas[..i])
    {
      var d := deltas[i];
      assert deltas[..i + 1][..i] == deltas[..i];
      calls := Touched(calls, d.index);
      var target := calls[d.index].value;
      if Truthy(d.id) {
        target := target.(id := d.id);
      }
      target := target.(name := target.name + d.name.Or([]));
      target := target.(arguments := target.arguments + d.arguments.Or([]));
      calls := calls[d.index := Some(target)];
    }
    assert deltas[..|deltas|] == deltas;
  }

  lemma NothingSaid(next: seq<Answer> -> Request, replies: Replies)
    ensures Talked(next, [], replies) == Talk([], [], true)
  {
  }

  lemma TalkedOneMore(next: seq<Answer> -> Request, modes: seq<bool>, k: nat, replies: Replies)
    requires k < |modes| && Talked(next, modes[..k], replies).going
    ensures var before := Talked(next, modes[..k], replies);
            var sent := before.messages + Entries(next(before.answers));
            var a := replies.Reply(modes[k], sent);
            Talked(next, modes[..k + 1], replies) ==
              if a.None? then Talk(sent, before.answers, false)
              else Talk(sent + [Recorded(a.value)], before.answers + [a.value], true)
  {
    var longer := modes[..k + 1];
    assert longer[..|longer| - 1] == modes[..k];
  }

  lemma {:induction false} AnswersCount(next: seq<Answer> -> Request, modes: seq<bool>, replies: Replies)
    ensures var talk := Talked(next, modes, replies);
            if talk.going then |talk.answers| == |modes| else |talk.answers| < |modes|
  {
    if modes != [] {
      AnswersCount(next, modes[..|modes| - 1], replies);
    }
  }

  lemma {:induction false} StaysEnded(next: seq<Answer> -> Request, modes: seq<bool>, n: nat, replies: Replies)
    requires n <= |modes| && !Talked(next, modes[..n], replies).going
    ensures Talked(next, modes, replies) == Talked(next, modes[..n], replies)
    ensures |Talked(next, modes[..n], replies).answers| < n
    decreases |modes|
  {
    AnswersCount(next, modes[..n], replies);
    if n == |modes| {
      assert modes[..n] == modes;
    } else {
      var front := modes[..|modes| - 1];
      assert front[..n] == modes[..n];
      StaysEnded(next, front, n, replies);
    }
  }

  /** Results are only sent for calls of the answer before. */
  ghost predicate AnswersCalls(next: seq<Answer> -> Request) {
    forall answers: seq<Answer> :: next(answers).Results? ==>
      answers != [] && forall r :: r in next(answers).results ==> Some(r.0) in answers[|answers| - 1].calls
  }

  /** The result at `i` has the id of a call in the assistant's entry at `j`, the last one before it. */
  ghost predicate ResultOf(messages: seq<Entry>, i: nat, j: nat)
    requires i < |messages| && messages[i].Tool?
  {
    && j < i && messages[j].Assistant? && (forall m :: j < m < i ==> messages[m].Tool?)
    && exists c :: 0 <= c < |messages[j].calls| && messages[j].calls[c].Some?
                   && messages[j].calls[c].value.id == Some(messages[i].callId)
  }

  ghost predicate ToolsAnswer(messages: seq<Entry>) {
    forall i: nat :: i < |messages| && messages[i].Tool? ==> exists j: nat :: ResultOf(messages, i, j)
  }

  function AssistantsOf(messages: seq<Entry>): seq<Entry> {
    if messages == [] then []
    else
      var last := messages[|messages| - 1];
      AssistantsOf(messages[..|messages| - 1]) + (if last.Assistant? then [last] else [])
  }

  /** The assistant's entries tell the answers, one each and in order. */
  ghost predicate AllTold(messages: seq<Entry>, answers: seq<Answer>) {
    |AssistantsOf(messages)| == |answers| && forall k :: 0 <= k < |answers| ==>
        Tells(AssistantsOf(messages)[k], answers[k])
  }

  lemma {:induction false} AssistantsJoin(a: seq<Entry>, b: seq<Entry>)
    ensures AssistantsOf(a + b) == AssistantsOf(a) + AssistantsOf(b)
  {
    var ab := a + b;
    if b == [] {
      assert ab == a;
    } else {
      assert ab[..|ab| - 1] == a + b[..|b| - 1] && ab[|ab| - 1] == b[|b| - 1];
      AssistantsJoin(a, b[..|b| - 1]);
    }
  }

  lemma {:induction false} NoAssistants(messages: seq<Entry>)
    requires forall m :: m in messages ==> !m.Assistant?
    ensures AssistantsOf(messages) == []
  {
    if messages != [] {
      assert messages[|messages| - 1] in messages;
      NoAssistants(messages[..|messages| - 1]);
    }
  }

  lemma PushedByTheApplication(request: Request)
    ensures forall m :: m in Entries(request) ==> !m.Assistant?
  {
    if request.Results? {
      ToolEntriesAre(request.results);
    }
  }

  lemma IsAssistant(a: Answer)
    ensures Recorded(a).Assistant?
  {
  }

  lemma ToldOneMore(messages: seq<Entry>, answers: seq<Answer>, request: Request, a: Answer)
    requires AllTold(messages, answers)
    ensures AllTold(messages + Entries(request), answers)
    ensures AllTold(messages + Entries(request) + [Recorded(a)], answers + [a])
  {
    hide Tells, Entries, Recorded;
    PushedByTheApplication(request);
    NoAssistants(Entries(request));
    AssistantsJoin(messages, Entries(request));
    RecordedTells(a);
    IsAssistant(a);
    var sent := messages + Entries(request);
    var longer := sent + [Recorded(a)];
    assert longer[..|longer| - 1] == sent && longer[|longer| - 1] == Recorded(a);
  }

  lemma NothingTold()
    ensures AllTold([], [])
  {
  }

  /** The transcript of a conversation tells every answer. */
  lemma {:induction false} AnswersAreTold(next: seq<Answer> -> Request, modes: seq<bool>, replies: Replies)
    ensures var talk := Talked(next, modes, replies); AllTold(talk.messages, talk.answers)
  {
    hide AllTold, Entries, Recorded, Streamed, Whole;
    if modes == [] {
      NothingTold();
    } else {
      var n := |modes| - 1;
      AnswersAreTold(next, modes[..n], replies);
      var before := Talked(next, modes[..n], replies);
      var request := next(before.answers);
      var a := replies.Reply(modes[n], before.messages + Entries(request));
      ToldOneMore(before.messages, before.answers, request, a.Or(BLANK));
    }
  }

  /** The transcript ends with the entry of the last answer. */
  ghost predicate EndsTold(messages: seq<Entry>, answers: seq<Answer>) {
    answers != [] ==> messages != [] && Tells(messages[|messages| - 1], answers[|answers| - 1])
  }

  lemma CallIsTold(entry: Entry, a: Answer, call: Call)
    requires Tells(entry, a) && Some(call) in a.calls
    ensures exists c ::
              0 <= c < |entry.calls| && entry.calls[c].Some? && entry.calls[c].value.id == Some(call.id.Or([]))
  {
    var c :| 0 <= c < |a.calls| && a.calls[c] == Some(call);
    assert entry.calls[c].Some?;
  }

  lemma StillAnswered(messages: seq<Entry>, all: seq<Entry>, i: nat)
    requires messages <= all && i < |messages| && messages[i].Tool? && ToolsAnswer(messages)
    ensures all[i].Tool? && exists j: nat :: ResultOf(all, i, j)
  {
    var j: nat :| ResultOf(messages, i, j);
    assert all[j] == messages[j] && forall m :: j < m < i ==> all[m] == messages[m];
    assert ResultOf(all, i, j);
  }

  lemma ResultsFollow(messages: seq<Entry>, answers: seq<Answer>, results: seq<(Call, CodeText)>)
    requires ToolsAnswer(messages) && EndsTold(messages, answers) && answers != []
    requires forall r :: r in results ==> Some(r.0) in answers[|answers| - 1].calls
    ensures ToolsAnswer(messages + ToolEntries(results))
  {
    ToolEntriesAre(results);
    var n, all := |messages|, messages + ToolEntries(results);
    forall i: nat | i < |all| && all[i].Tool? ensures exists j: nat :: ResultOf(all, i, j) {
      if i < n {
        StillAnswered(messages, all, i);
      } else {
        assert all[i] == Tool(results[i - n].0.id.Or([]), results[i - n].1) && results[i - n] in results;
        CallIsTold(messages[n - 1], answers[|answers| - 1], results[i - n].0);
        assert all[n - 1] == messages[n - 1];
        assert ResultOf(all, i, n - 1);
      }
    }
  }

  lemma NoResultFollows(messages: seq<Entry>, entry: Entry)
    requires ToolsAnswer(messages) && !entry.Tool?
    ensures ToolsAnswer(messages + [entry])
  {
    var all := messages + [entry];
    forall i: nat | i < |all| && all[i].Tool? ensures exists j: nat :: ResultOf(all, i, j) {
      StillAnswered(messages, all, i);
    }
  }

  lemma NothingAnswered()
    ensures ToolsAnswer([]) && EndsTold([], [])
  {
  }

  lemma EndsWithTold(sent: seq<Entry>, answers: seq<Answer>, a: Answer)
    ensures EndsTold(sent + [Recorded(a)], answers + [a])
  {
    hide Recorded, Tells;
    RecordedTells(a);
  }

  lemma RequestFollows(messages: seq<Entry>, answers: seq<Answer>, next: seq<Answer> -> Request)
    requires AnswersCalls(next) && ToolsAnswer(messages) && EndsTold(messages, answers)
    ensures ToolsAnswer(messages + Entries(next(answers)))
  {
    hide ToolsAnswer, EndsTold;
    match next(answers)
    case UserTurn(text, image) =>
      assert messages + [] == messages;
      if text.Some? { NoResultFollows(messages, User(text.value, image)); }
    case Results(results) => ResultsFollow(messages, answers, results);
  }

  /** When results are sent for calls of the answer before, each has the id of a call in the assistant's
      entry before it. */
  lemma {:induction false} ToolsAnswerCalls(next: seq<Answer> -> Request, modes: seq<bool>, replies: Replies)
    requires AnswersCalls(next)
    ensures var talk := Talked(next, modes, replies);
            ToolsAnswer(talk.messages) && (talk.going ==> EndsTold(talk.messages, talk.answers))
  {
    hide ToolsAnswer, EndsTold, Recorded, Streamed, Whole;
    if modes == [] {
      NothingAnswered();
    } else {
      var n := |modes| - 1;
      ToolsAnswerCalls(next, modes[..n], replies);
      var before := Talked(next, modes[..n], replies);
      if before.going {
        var request := next(before.answers);
        var sent := before.messages + Entries(request);
        RequestFollows(before.messages, before.answers, next);
        var a := replies.Reply(modes[n], sent);
        if a.Some? {
          IsAssistant(a.value);
          NoResultFollows(sent, Recorded(a.value));
          EndsWithTold(sent, before.answers, a.value);
        }
      }
    }
  }

  class ChatConversation {
    var messages: seq<Entry>

    constructor ()
      ensures messages == []
    {
      messages := [];
    }

    method SendStreamed(chunks: seq<Chunk>) returns (a: Answer)
      modifies this
      ensures a == Streamed(chunks) && messages == old(messages) + [Recorded(a)]
      ensures Tells(messages[|messages| - 1], a)
    {
      hide Recorded, Tells;
      var text, reasoning, finish := [], [], [];
      var usage: Option<Usage> := None;
      var calls: seq<Option<Call>> := [];
      for i := 0 to |chunks|
        invariant Answer(text, reasoning, calls, finish, usage) == Streamed(chunks[..i])
        invariant messages == old(messages)
      {
        var chunk := chunks[i];
        assert chunks[..i + 1][..i] == chunks[..i];
        if chunk.usage.Some? {
          usage := chunk.usage;
        }
        ghost var before := Answer(text, reasoning, calls, finish, usage);
        for j := 0 to |chunk.choices|
          invariant Answer(text, reasoning, calls, finish, usage) == WithChoices(before, chunk.choices[..j])
          invariant messages == old(messages)
        {
          var choice := chunk.choices[j];
          assert chunk.choices[..j + 1][..j] == chunk.choices[..j];
          text := text + choice.content.Or([]);
          reasoning := reasoning + choice.reasoning.Or([]);
          calls := AddDeltas(calls, choice.calls);
          if Truthy(choice.finish) {
            finish := choice.finish.value;
          }
        }
        assert chunk.choices[..|chunk.choices|] == chunk.choices;
      }
      assert chunks[..|chunks|] == chunks;
      a := Answer(text, reasoning, calls, finish, usage);
      RecordedTells(a);
      messages := messages + [Recorded(a)];
    }

    method SendWhole(completion: Completion) returns (a: Option<Answer>)
      modifies this
      ensures a == Whole(completion)
      ensures messages == if a.Some? then old(messages) + [Recorded(a.value)] else old(messages)
      ensures a.Some? ==> Tells(messages[|messages| - 1], a.value)
    {
      hide Recorded, Tells;
      if completion.choices == [] {
        return None;
      }
      var m := completion.choices[0];
      var calls: seq<Option<Call>> := [];
      for i := 0 to |m.calls|
        invariant calls == FunctionCalls(m.calls[..i])
        invariant messages == old(messages)
      {
        assert m.calls[..i + 1][..i] == m.calls[..i];
        if m.calls[i].isFunction {
          calls := calls + [Some(Call(Some(m.calls[i].id), m.calls[i].name, m.calls[i].arguments))];
        }
      }
      assert m.calls[..|m.calls|] == m.calls;
      a := Some(Answer(m.content.Or([]), m.reasoning.Or([]), calls, m.finish, completion.usage));
      RecordedTells(a.value);
      messages := messages + [Recorded(a.value)];
    }

    /** `send` to a model that answers a transcript, whole or in chunks. */
    method Send(stream: bool, replies: Replies) returns (a: Option<Answer>)
      modifies this
      ensures a == replies.Reply(stream, old(messages))
      ensures messages == if a.Some? then old(messages) + [Recorded(a.value)] else old(messages)
      ensures Exchanged(old(messages), messages, [], a)
    {
      hide Recorded, Tells;
      if stream {
        var answer := SendStreamed(replies.chunks(messages));
        a := Some(answer);
      } else {
        a := SendWhole(replies.completion(messages));
      }
    }

    method Ask(text: Option<CodeText>, image: Option<CodeText>, stream: bool, replies: Replies)
      returns (a: Option<Answer>)
      modifies this
      ensures var sent := old(messages) + Entries(UserTurn(text, image));
              && a == replies.Reply(stream, sent)
              && messages == if a.Some? then sent + [Recorded(a.value)] else sent
      ensures Exchanged(old(messages), messages, if text.Some? then [User(text.value, image)] else [], a)
      ensures a == replies.Reply(stream, if a.Some? then messages[..|messages| - 1] else messages)
    {
      hide Recorded, Tells;
      assert messages + [] == messages;
      if text.Some? {
        messages := messages + [User(text.value, image)];
      }
      a := Send(stream, replies);
    }

    method AnswerCalls(results: seq<(Call, CodeText)>, stream: bool, replies: Replies) returns (a: Option<Answer>)
      modifies this
      ensures var sent := old(messages) + Entries(Results(results));
              && a == replies.Reply(stream, sent)
              && messages == if a.Some? then sent + [Recorded(a.value)] else sent
      ensures a == replies.Reply(stream, if a.Some? then messages[..|messages| - 1] else messages)
      ensures |messages| >= |old(messages)| + |results|
      ensures Exchanged(old(messages), messages, messages[|old(messages)|..|old(messages)| + |results|], a)
      ensures forall i :: 0 <= i < |results| ==>
                messages[|old(messages)| + i] == Tool(results[i].0.id.Or([]), results[i].1)
    {
      hide Recorded, Tells, ToolEntries, Replies.Reply;
      ToolEntriesAre(results);
      NoResultYet();
      for i := 0 to |results|
        invariant messages == old(messages) + ToolEntries(results[..i])
      {
        OneResultMore(results, i);
        messages := messages + [Tool(results[i].0.id.Or([]), results[i].1)];
      }
      assert results[..|results|] == results;
      ghost var sent := messages;
      a := Send(stream, replies);
      assert sent <= messages && sent[|old(messages)|..] == ToolEntries(results);
    }

    /** A whole conversation: what is sent next depends on the answers so far, and each turn is
        streamed or not. It ends early when an answer has no choice. */
    method Converse(next: seq<Answer> -> Request, modes: seq<bool>, replies: Replies) returns (answers: seq<Answer>)
      requires messages == []
      modifies this
      ensures Talk(messages, answers, |answers| == |modes|) == Talked(next, modes, replies)
      ensures AllTold(messages, answers)
      ensures AnswersCalls(next) ==> ToolsAnswer(messages)
    {
      hide AllTold, ToolsAnswer, AnswersCalls, Exchanged, Recorded, Talked, Replies.Reply, ToolEntries;
      AnswersAreTold(next, modes, replies);
      if AnswersCalls(next) {
        ToolsAnswerCalls(next, modes, replies);
      }
      answers := [];
      NothingSaid(next, replies);
      for k := 0 to |modes|
        invariant |answers| == k && Talk(messages, answers, true) == Talked(next, modes[..k], replies)
      {
        TalkedOneMore(next, modes, k, replies);
        var a: Option<Answer>;
        match next(answers) {
          case UserTurn(text, image) => a := Ask(text, image, modes[k], replies);
          case Results(results) => a := AnswerCalls(results, modes[k], replies);
        }
        if a.None? {
          StaysEnded(next, modes, k + 1, replies);
          return;
        }
        answers := answers + [a.value];
      }
      assert modes[..|modes|] == modes;
    }
  }

  // ---------- Reference: what a stream says, field by field ----------

  function Choices(chunks: seq<Chunk>): seq<Choice> {
    if chunks == [] then [] else Choices(chunks[..|chunks| - 1]) + chunks[|chunks| - 1].choices
  }

  function TextOf(choices: seq<Choice>): CodeText {
    if choices == [] then [] else TextOf(choices[..|choices| - 1]) + choices[|choices| - 1].content.Or([])
  }

  function ReasoningOf(choices: seq<Choice>): CodeText {
    if choices == [] then [] else ReasoningOf(choices[..|choices| - 1]) + choices[|choices| - 1].reasoning.Or([])
  }

  function DeltasOf(choices: seq<Choice>): seq<CallDelta> {
    if choices == [] then [] else DeltasOf(choices[..|choices| - 1]) + choices[|choices| - 1].calls
  }

  function FinishOf(choices: seq<Choice>): CodeText {
    if choices == [] then []
    else
      var last := choices[|choices| - 1];
      if Truthy(last.finish) then last.finish.value else FinishOf(choices[..|choices| - 1])
  }

  function UsageOf(chunks: seq<Chunk>): Option<Usage> {
    if chunks == [] then None
    else if chunks[|chunks| - 1].usage.Some? then chunks[|chunks| - 1].usage
    else UsageOf(chunks[..|chunks| - 1])
  }

  /** The pieces of one index, joined; the last non-empty id. */
  function CallAt(deltas: seq<CallDelta>, index: nat): Call {
    if deltas == [] then BLANK_CALL
    else
      var last, rest := deltas[|deltas| - 1], CallAt(deltas[..|deltas| - 1], index);
      if last.index == index then Extended(rest, last) else rest
  }

  predicate Names(deltas: seq<CallDelta>, index: nat) {
    exists d :: d in deltas && d.index == index
  }

  /** One above the highest index named. */
  function Height(deltas: seq<CallDelta>): nat {
    if deltas == [] then 0
    else
      var last, rest := deltas[|deltas| - 1], Height(deltas[..|deltas| - 1]);
      if last.index < rest then rest else last.index + 1
  }

  // ---------- The streaming branch reads exactly that ----------

  lemma OneMore(calls: seq<Option<Call>>, d: CallDelta)
    ensures var r := WithDelta(calls, d);
            && |r| == (if d.index < |calls| then |calls| else d.index + 1)
            && (forall i :: 0 <= i < |r| && i != d.index ==> r[i] == if i < |calls| then calls[i] else None)
            && var call := if d.index < |calls| && calls[d.index].Some? then calls[d.index].value else BLANK_CALL;
            r[d.index] == Some(Extended(call, d))
  {
  }

  lemma {:induction false} DeltasAssemble(deltas: seq<CallDelta>)
    ensures |WithDeltas([], deltas)| == Height(deltas)
    ensures forall i :: 0 <= i < Height(deltas) ==>
              WithDeltas([], deltas)[i] == if Names(deltas, i) then Some(CallAt(deltas, i)) else None
    ensures forall i :: Height(deltas) <= i ==> !Names(deltas, i)
    ensures forall i: nat :: !Names(deltas, i) ==> CallAt(deltas, i) == BLANK_CALL
  {
    if deltas != [] {
      var front, last := deltas[..|deltas| - 1], deltas[|deltas| - 1];
      assert deltas == front + [last];
      DeltasAssemble(front);
      forall i: nat ensures Names(deltas, i) <==> Names(front, i) || i == last.index {
        if i == last.index { assert last in deltas; }
        if Names(front, i) { var d :| d in front && d.index == i; assert d in deltas; }
      }
      OneMore(WithDeltas([], front), last);
    }
  }

  lemma {:induction false} DeltasJoin(calls: seq<Option<Call>>, a: seq<CallDelta>, b: seq<CallDelta>)
    ensures WithDeltas(calls, a + b) == WithDeltas(WithDeltas(calls, a), b)
  {
    hide WithDelta;
    var ab := a + b;
    if b == [] {
      assert ab == a;
    } else {
      assert ab[..|ab| - 1] == a + b[..|b| - 1] && ab[|ab| - 1] == b[|b| - 1];
      DeltasJoin(calls, a, b[..|b| - 1]);
    }
  }

  lemma {:induction false} ChoicesJoin(a: Answer, first: seq<Choice>, second: seq<Choice>)
    ensures WithChoices(a, first + second) == WithChoices(WithChoices(a, first), second)
  {
    hide WithChoice;
    var both := first + second;
    if second == [] {
      assert both == first;
    } else {
      assert both[..|both| - 1] == first + second[..|second| - 1] && both[|both| - 1] == second[|second| - 1];
      ChoicesJoin(a, first, second[..|second| - 1]);
    }
  }

  lemma {:induction false} ChoicesRead(choices: seq<Choice>)
    ensures WithChoices(BLANK, choices)
         == Answer(TextOf(choices), ReasoningOf(choices), WithDeltas([], DeltasOf(choices)), FinishOf(choices), None)
  {
    if choices != [] {
      var front, last := choices[..|choices| - 1], choices[|choices| - 1];
      ChoicesRead(front);
      DeltasJoin([], DeltasOf(front), last.calls);
    }
  }

  lemma {:induction false} UsageApart(a: Answer, choices: seq<Choice>, usage: Option<Usage>)
    ensures WithChoices(a.(usage := usage), choices) == WithChoices(a, choices).(usage := usage)
  {
    if choices != [] { UsageApart(a, choices[..|choices| - 1], usage); }
  }

  lemma {:induction false} ChunksRead(chunks: seq<Chunk>)
    ensures Streamed(chunks) == WithChoices(BLANK, Choices(chunks)).(usage := UsageOf(chunks))
  {
    if chunks != [] {
      var front, last := chunks[..|chunks| - 1], chunks[|chunks| - 1];
      ChunksRead(front);
      ChoicesJoin(BLANK, Choices(front), last.choices);
      UsageApart(WithChoices(BLANK, Choices(front)), last.choices, UsageOf(chunks));
    }
  }

  lemma StreamedReads(chunks: seq<Chunk>)
    ensures Streamed(chunks) ==
              Answer(TextOf(Choices(chunks)), ReasoningOf(Choices(chunks)), WithDeltas([], DeltasOf(Choices(chunks))),
                     FinishOf(Choices(chunks)), UsageOf(chunks))
  {
    ChunksRead(chunks);
    ChoicesRead(Choices(chunks));
  }

  // ---------- Streaming and whole answers agree ----------

  /** The deltas of `chunks` say what `completion` says: each field's pieces, in whatever order
      the calls are interleaved and wherever they are cut, join to the field. */
  predicate Says(chunks: seq<Chunk>, completion: Completion) {
    && completion.choices != []
    && var m, choices := completion.choices[0], Choices(chunks);
    && TextOf(choices) == m.content.Or([]) && ReasoningOf(choices) == m.reasoning.Or([])
    && FinishOf(choices) == m.finish && UsageOf(chunks) == completion.usage
    && Height(DeltasOf(choices)) == |m.calls|
    && (forall i :: 0 <= i < |m.calls| ==>
          && Names(DeltasOf(choices), i)
          && CallAt(DeltasOf(choices), i) == Call(Some(m.calls[i].id), m.calls[i].name, m.calls[i].arguments))
  }

  /** The pieces that the deltas of one index hold, joined. */
  function JoinedAt(deltas: seq<CallDelta>, index: nat, piece: CallDelta -> Option<CodeText>): CodeText {
    if deltas == [] then []
    else
      var last := deltas[|deltas| - 1];
      JoinedAt(deltas[..|deltas| - 1], index, piece) + (if last.index == index then piece(last).Or([]) else [])
  }

  /** The last id of an index that is not empty. */
  function LastIdAt(deltas: seq<CallDelta>, index: nat): Option<CodeText> {
    if deltas == [] then None
    else
      var last := deltas[|deltas| - 1];
      if last.index == index && last.id.Some? && last.id.value != [] then last.id
      else LastIdAt(deltas[..|deltas| - 1], index)
  }

  function NameIn(d: CallDelta): Option<CodeText> { d.name }

  function ArgumentsIn(d: CallDelta): Option<CodeText> { d.arguments }

  /** An assembled call, field by field. */
  lemma {:induction false} CallAtReads(deltas: seq<CallDelta>, index: nat)
    ensures CallAt(deltas, index) ==
              Call(LastIdAt(deltas, index), JoinedAt(deltas, index, NameIn), JoinedAt(deltas, index, ArgumentsIn))
  {
    if deltas != [] {
      CallAtReads(deltas[..|deltas| - 1], index);
    }
  }

  /** Each call in one delta. */
  function DeltasFor(calls: seq<MessageCall>): seq<CallDelta> {
    if calls == [] then []
    else
      var n := |calls| - 1;
      DeltasFor(calls[..n]) + [CallDelta(n, Some(calls[n].id), Some(calls[n].name), Some(calls[n].arguments))]
  }

  lemma {:induction false} DeltasForSay(calls: seq<MessageCall>)
    ensures Height(DeltasFor(calls)) == |calls|
    ensures forall i :: |calls| <= i ==> CallAt(DeltasFor(calls), i) == BLANK_CALL
    ensures forall i :: 0 <= i < |calls| ==>
              && Names(DeltasFor(calls), i)
              && CallAt(DeltasFor(calls), i) ==
                   Call(if calls[i].id != [] then Some(calls[i].id) else None, calls[i].name, calls[i].arguments)
  {
    if calls != [] {
      var n := |calls| - 1;
      var front, last := DeltasFor(calls[..n]), DeltasFor(calls)[|DeltasFor(calls)| - 1];
      DeltasForSay(calls[..n]);
      assert DeltasFor(calls)[..|DeltasFor(calls)| - 1] == front && last in DeltasFor(calls);
      forall i | 0 <= i < n ensures Names(DeltasFor(calls), i) {
        assert calls[..n][i] == calls[i] && Names(front, i);
        var d :| d in front && d.index == i;
        assert d in DeltasFor(calls);
      }
    }
  }

  /** A whole answer as a stream of one chunk. */
  function StreamOf(m: Message, usage: Option<Usage>): seq<Chunk> {
    [Chunk(usage, [Choice(m.content, m.reasoning, DeltasFor(m.calls), Some(m.finish))])]
  }

  lemma OneChoice(c: Choice)
    ensures TextOf([c]) == c.content.Or([]) && ReasoningOf([c]) == c.reasoning.Or([]) && DeltasOf([c]) == c.calls
    ensures FinishOf([c]) == c.finish.Or([])
  {
    assert [c][..0] == [];
  }

  lemma OneChunk(chunk: Chunk)
    ensures Choices([chunk]) == chunk.choices && UsageOf([chunk]) == chunk.usage
  {
    assert [chunk][..0] == [];
  }

  /** Every answer can be streamed, so long as its calls have ids: an empty id is not taken over. */
  lemma AnswersCanBeStreamed(completion: Completion)
    requires completion.choices != []
    ensures var m := completion.choices[0];
            Says(StreamOf(m, completion.usage), completion) <==> forall call :: call in m.calls ==> call.id != []
  {
    hide DeltasFor, CallAt, Height, Names, Choices, TextOf, ReasoningOf, DeltasOf, FinishOf, UsageOf;
    var m := completion.choices[0];
    OneChunk(Chunk(completion.usage, [Choice(m.content, m.reasoning, DeltasFor(m.calls), Some(m.finish))]));
    OneChoice(Choice(m.content, m.reasoning, DeltasFor(m.calls), Some(m.finish)));
    DeltasForSay(m.calls);
  }

  predicate OnlyFunctions(completion: Completion) {
    forall m, call :: m in completion.choices && call in m.calls ==> call.isFunction
  }

  /** Of a whole answer's calls exactly the function calls are read, in order. */
  lemma {:induction false} FunctionCallsJoin(a: seq<MessageCall>, b: seq<MessageCall>)
    ensures FunctionCalls(a + b) == FunctionCalls(a) + FunctionCalls(b)
  {
    var ab := a + b;
    if b == [] {
      assert ab == a;
    } else {
      assert ab[..|ab| - 1] == a + b[..|b| - 1] && ab[|ab| - 1] == b[|b| - 1];
      FunctionCallsJoin(a, b[..|b| - 1]);
    }
  }

  lemma FunctionCallsOfOne(call: MessageCall)
    ensures FunctionCalls([call]) ==
              if call.isFunction then [Some(Call(Some(call.id), call.name, call.arguments))] else []
  {
    assert [call][..0] == [];
  }

  lemma {:induction false} AllFunctionCalls(calls: seq<MessageCall>)
    requires forall call :: call in calls ==> call.isFunction
    ensures |FunctionCalls(calls)| == |calls|
    ensures forall i :: 0 <= i < |calls| ==>
              FunctionCalls(calls)[i] == Some(Call(Some(calls[i].id), calls[i].name, calls[i].arguments))
  {
    if calls != [] {
      assert forall call :: call in calls[..|calls| - 1] ==> call in calls;
      AllFunctionCalls(calls[..|calls| - 1]);
    }
  }

  lemma CallsAgree(calls: seq<MessageCall>, deltas: seq<CallDelta>)
    requires |FunctionCalls(calls)| == |calls| && |WithDeltas([], deltas)| == Height(deltas)
    requires forall i :: 0 <= i < |calls| ==>
               FunctionCalls(calls)[i] == Some(Call(Some(calls[i].id), calls[i].name, calls[i].arguments))
    requires forall i :: 0 <= i < Height(deltas) ==>
               WithDeltas([], deltas)[i] == if Names(deltas, i) then Some(CallAt(deltas, i)) else None
    ensures FunctionCalls(calls) == WithDeltas([], deltas) <==>
              && Height(deltas) == |calls|
              && forall i :: 0 <= i < |calls| ==>
                   Names(deltas, i) && CallAt(deltas, i) == Call(Some(calls[i].id), calls[i].name, calls[i].arguments)
  {
  }

  /** The streaming branch gives the same Turn, and so the same transcript message, as the
      whole-response branch exactly when the stream says what the answer says. */
  lemma StreamedAgreesWithWhole(chunks: seq<Chunk>, completion: Completion)
    requires OnlyFunctions(completion)
    ensures Whole(completion) == Some(Streamed(chunks)) <==> Says(chunks, completion)
  {
    if completion.choices != [] {
      var m, deltas := completion.choices[0], DeltasOf(Choices(chunks));
      StreamedReads(chunks);
      AllFunctionCalls(m.calls);
      DeltasAssemble(deltas);
      CallsAgree(m.calls, deltas);
    }
  }

  // ---------- Whole conversations ----------

  /** Over a whole conversation with a model that says the same streamed as whole: whichever turns
      are streamed, the same answers are read and the same transcript goes back to it. */
  lemma {:induction false} ConversationsAgree(next: seq<Answer> -> Request, first: seq<bool>, second: seq<bool>,
                                              replies: Replies)
    requires |first| == |second|
    requires forall messages ::
               OnlyFunctions(replies.completion(messages))
                   && Says(replies.chunks(messages), replies.completion(messages))
    ensures Talked(next, first, replies) == Talked(next, second, replies)
    ensures Talked(next, first, replies).going
    decreases |first|
  {
    hide Says, OnlyFunctions, Streamed, Whole, Recorded;
    if first != [] {
      var n := |first| - 1;
      ConversationsAgree(next, first[..n], second[..n], replies);
      var before := Talked(next, first[..n], replies);
      var sent := before.messages + Entries(next(before.answers));
      StreamedAgreesWithWhole(replies.chunks(sent), replies.completion(sent));
    }
  }
}
