/** Reading a Responses answer and sending it back: conformance/protocols/clients.ts,
    `responsesTurn` and `replayItems`. */
module ResponsesReplay {
  import opened Optional

  datatype Part = OutputText(text: string) | OtherPart(kind: string)

  /** An output item; `replayItems` makes input items, which have the same kinds. */
  datatype Item =
    | Message(content: seq<Part>)
    | Reasoning(id: string, summary: seq<string>, encrypted: Option<string>)
    | FunctionCall(callId: string, name: string, arguments: string)
    | CustomToolCall(callId: string, name: string, input: string)
    | OtherItem(kind: string)

  datatype Call = Call(id: string, name: string, arguments: string, custom: bool)
  datatype Read = Read(text: string, reasoning: string, calls: seq<Call>)
  datatype Counts = Counts(input: nat, output: nat, cached: Option<nat>)
  datatype Usage = Usage(input: nat, output: nat, cached: nat)
  datatype Response = Response(output: seq<Item>, status: string, incompleteReason: Option<string>,
                               counts: Option<Counts>)
  datatype Turn = Turn(read: Read, finish: string, usage: Option<Usage>)

  // ---------- responsesTurn ----------

  function TextOf(parts: seq<Part>): string {
    if parts == [] then ""
    else TextOf(parts[..|parts| - 1]) + (var last := parts[|parts| - 1]; if last.OutputText? then last.text else "")
  }

  function Joined(texts: seq<string>): string {
    if texts == [] then "" else Joined(texts[..|texts| - 1]) + texts[|texts| - 1]
  }

  function WithItem(r: Read, item: Item): Read {
    match item
    case Message(content) => r.(text := r.text + TextOf(content))
    case Reasoning(_, summary, _) => r.(reasoning := r.reasoning + Joined(summary))
    case FunctionCall(id, name, arguments) => r.(calls := r.calls + [Call(id, name, arguments, false)])
    case CustomToolCall(id, name, input) => r.(calls := r.calls + [Call(id, name, input, true)])
    case OtherItem(_) => r
  }

  function Reads(output: seq<Item>): Read {
    if output == [] then Read("", "", []) else WithItem(Reads(output[..|output| - 1]), output[|output| - 1])
  }

  function Finish(response: Response, calls: seq<Call>): string {
    if response.status == "incomplete" then
      if response.incompleteReason == Some("max_output_tokens") then "length"
      else if response.incompleteReason.Some? then response.incompleteReason.value
      else "incomplete"
    else if response.status == "completed" then (if calls != [] then "tool_calls" else "stop")
    else response.status
  }

  function UsageOf(counts: Option<Counts>): Option<Usage> {
    if counts.None? then None else Some(Usage(counts.value.input, counts.value.output, counts.value.cached.Or(0)))
  }

  method ResponsesTurn(response: Response) returns (turn: Turn)
    ensures turn == Turn(Reads(response.output), Finish(response, Reads(response.output).calls),
        UsageOf(response.counts))
    ensures response.status == "completed" ==> turn.finish == if turn.read.calls != [] then "tool_calls" else "stop"
    ensures response.status == "incomplete" ==>
              turn.finish == match response.incompleteReason
                             case None => "incomplete"
                             case Some(reason) => if reason == "max_output_tokens" then "length" else reason
    ensures response.status !in ["completed", "incomplete"] ==> turn.finish == response.status
    ensures turn.usage.Some? <==> response.counts.Some?
    ensures turn.usage.Some? ==>
              && turn.usage.value.input == response.counts.value.input
              && turn.usage.value.output == response.counts.value.output
              && turn.usage.value.cached == match response.counts.value.cached case None => 0 case Some(n) => n
  {
    var text, reasoning := "", "";
    var calls: seq<Call> := [];
    for i := 0 to |response.output|
      invariant Read(text, reasoning, calls) == Reads(response.output[..i])
    {
      assert response.output[..i + 1][..i] == response.output[..i];
      match response.output[i]
      case Message(content) =>
        ghost var before := text;
        for j := 0 to |content|
          invariant text == before + TextOf(content[..j])
        {
          assert content[..j + 1][..j] == content[..j];
          text := text + if content[j].OutputText? then content[j].text else "";
        }
        assert content[..|content|] == content;
      case Reasoning(_, summary, _) => reasoning := reasoning + Joined(summary);
      case FunctionCall(id, name, arguments) => calls := calls + [Call(id, name, arguments, false)];
      case CustomToolCall(id, name, input) => calls := calls + [Call(id, name, input, true)];
      case OtherItem(_) =>
    }
    assert response.output[..|response.output|] == response.output;
    turn := Turn(Read(text, reasoning, calls), Finish(response, calls), UsageOf(response.counts));
  }

  // ---------- replayItems ----------

  function OnlyText(parts: seq<Part>): seq<Part> {
    if parts == [] then []
    else
      var last := parts[|parts| - 1];
      OnlyText(parts[..|parts| - 1]) + (if last.OutputText? then [last] else [])
  }

  function Replayed(item: Item): seq<Item> {
    match item
    case Message(content) => [Message(OnlyText(content))]
    case Reasoning(id, summary, encrypted) =>
      [Reasoning(id, summary, if encrypted == Some("") then None else encrypted)]
    case FunctionCall(_, _, _) => [item]
    case CustomToolCall(_, _, _) => [item]
    case OtherItem(_) => []
  }

  function Replay(output: seq<Item>): seq<Item> {
    if output == [] then [] else Replay(output[..|output| - 1]) + Replayed(output[|output| - 1])
  }

  method ReplayItems(output: seq<Item>) returns (items: seq<Item>)
    ensures items == Replay(output)
  {
    items := [];
    for i := 0 to |output|
      invariant items == Replay(output[..i])
    {
      assert output[..i + 1][..i] == output[..i];
      match output[i]
      case Message(content) => items := items + [Message(OnlyText(content))];
      case Reasoning(id, summary, encrypted) =>
        items := items + [Reasoning(id, summary, if encrypted.Some? && encrypted.value != "" then encrypted else None)];
      case FunctionCall(_, _, _) => items := items + [output[i]];
      case CustomToolCall(_, _, _) => items := items + [output[i]];
      case OtherItem(_) =>
    }
    assert output[..|output|] == output;
  }

  // ---------- Replaying loses nothing a Turn reports ----------

  lemma OneTextMore(parts: seq<Part>, part: Part)
    requires part.OutputText?
    ensures TextOf(parts + [part]) == TextOf(parts) + part.text
    ensures OnlyText(parts + [part]) == OnlyText(parts) + [part]
  {
    var all := parts + [part];
    assert all[..|all| - 1] == parts && all[|all| - 1] == part;
  }

  lemma {:induction false} OnlyTextKeepsText(parts: seq<Part>)
    ensures TextOf(OnlyText(parts)) == TextOf(parts) && OnlyText(OnlyText(parts)) == OnlyText(parts)
  {
    if parts != [] {
      var front, last := parts[..|parts| - 1], parts[|parts| - 1];
      OnlyTextKeepsText(front);
      if last.OutputText? {
        OneTextMore(OnlyText(front), last);
      } else {
        assert OnlyText(parts) == OnlyText(front);
      }
    }
  }

  lemma ReplayedReads(r: Read, item: Item)
    ensures Replayed(item) == [] ==> WithItem(r, item) == r
    ensures Replayed(item) != [] ==> |Replayed(item)| == 1 && WithItem(r, Replayed(item)[0]) == WithItem(r, item)
    ensures Replayed(item) != [] ==> Replayed(Replayed(item)[0]) == Replayed(item)
  {
    if item.Message? { OnlyTextKeepsText(item.content); }
  }

  lemma AppendOne(items: seq<Item>, more: seq<Item>)
    requires |more| <= 1
    ensures more == [] ==> Reads(items + more) == Reads(items) && Replay(items + more) == Replay(items)
    ensures more != [] ==> Reads(items + more) == WithItem(Reads(items), more[0])
    ensures more != [] ==> Replay(items + more) == Replay(items) + Replayed(more[0])
  {
    var all := items + more;
    if more == [] {
      assert all == items;
    } else {
      assert all[..|all| - 1] == items && all[|all| - 1] == more[0];
    }
  }

  /** The text, the reasoning and the calls, in order, with their ids, names, arguments and kinds. */
  lemma {:induction false} ReplayKeepsWhatWasRead(output: seq<Item>)
    ensures Reads(Replay(output)) == Reads(output)
  {
    if output != [] {
      var front, last := output[..|output| - 1], output[|output| - 1];
      ReplayKeepsWhatWasRead(front);
      ReplayedReads(Reads(front), last);
      AppendOne(Replay(front), Replayed(last));
    }
  }

  lemma {:induction false} ReplayIsIdempotent(output: seq<Item>)
    ensures Replay(Replay(output)) == Replay(output)
  {
    if output != [] {
      var front, last := output[..|output| - 1], output[|output| - 1];
      ReplayIsIdempotent(front);
      ReplayedReads(Reads(front), last);
      AppendOne(Replay(front), Replayed(last));
    }
  }

  // ---------- What is read and sent back, item by item ----------

  lemma {:induction false} TextJoins(a: seq<Part>, b: seq<Part>)
    ensures TextOf(a + b) == TextOf(a) + TextOf(b) && OnlyText(a + b) == OnlyText(a) + OnlyText(b)
  {
    var ab := a + b;
    if b == [] {
      assert ab == a;
    } else {
      assert ab[..|ab| - 1] == a + b[..|b| - 1] && ab[|ab| - 1] == b[|b| - 1];
      TextJoins(a, b[..|b| - 1]);
    }
  }

  lemma TextOfOne(part: Part)
    ensures TextOf([]) == "" && OnlyText([]) == []
    ensures match part
            case OutputText(text) => TextOf([part]) == text && OnlyText([part]) == [OutputText(text)]
            case OtherPart(_) => TextOf([part]) == "" && OnlyText([part]) == []
  {
    assert [part][..0] == [];
  }

  lemma {:induction false} JoinedJoins(a: seq<string>, b: seq<string>)
    ensures Joined(a + b) == Joined(a) + Joined(b) && Joined([]) == "" && forall text :: Joined([text]) == text
  {
    assert forall text: string :: [text][..0] == [];
    var ab := a + b;
    if b == [] {
      assert ab == a;
    } else {
      assert ab[..|ab| - 1] == a + b[..|b| - 1] && ab[|ab| - 1] == b[|b| - 1];
      JoinedJoins(a, b[..|b| - 1]);
    }
  }

  /** What is read first, and then the rest. */
  function Then(first: Read, second: Read): Read {
    Read(first.text + second.text, first.reasoning + second.reasoning, first.calls + second.calls)
  }

  lemma ThenAnItem(first: Read, second: Read, item: Item)
    ensures WithItem(Then(first, second), item) == Then(first, WithItem(second, item))
    ensures Then(first, Read("", "", [])) == first
  {
  }

  /** Items are read, and sent back, one after the other. */
  lemma {:induction false} ItemsJoin(a: seq<Item>, b: seq<Item>)
    ensures Reads(a + b) == Then(Reads(a), Reads(b))
    ensures Replay(a + b) == Replay(a) + Replay(b)
  {
    hide Replayed, WithItem, Then;
    var ab := a + b;
    if b == [] {
      assert ab == a;
      ThenAnItem(Reads(a), Reads(b), OtherItem(""));
    } else {
      assert ab[..|ab| - 1] == a + b[..|b| - 1] && ab[|ab| - 1] == b[|b| - 1];
      ItemsJoin(a, b[..|b| - 1]);
      ThenAnItem(Reads(a), Reads(b[..|b| - 1]), b[|b| - 1]);
    }
  }

  /** One item: what is read of it. */
  lemma OneItemReads(item: Item)
    ensures Reads([]) == Read("", "", [])
    ensures Reads([item]) ==
              match item
              case Message(content) => Read(TextOf(content), "", [])
              case Reasoning(_, summary, _) => Read("", Joined(summary), [])
              case FunctionCall(id, name, arguments) => Read("", "", [Call(id, name, arguments, false)])
              case CustomToolCall(id, name, input) => Read("", "", [Call(id, name, input, true)])
              case OtherItem(_) => Read("", "", [])
  {
    assert [item][..0] == [];
  }

  /** One item: what is sent back of it. Calls and reasoning go back whole, but for empty encrypted content;
      of a message the texts do; nothing else does. */
  lemma OneItemReplays(item: Item)
    ensures Replay([]) == []
    ensures item.OtherItem? <==> Replay([item]) == []
    ensures !item.OtherItem? ==> |Replay([item])| == 1
    ensures item.FunctionCall? || item.CustomToolCall? ==> Replay([item])[0] == item
    ensures item.Message? ==> Replay([item])[0] == Message(OnlyText(item.content))
    ensures item.Reasoning? ==>
              var sent := Replay([item])[0];
              && sent.Reasoning? && sent.id == item.id && sent.summary == item.summary
              && (sent.encrypted.Some? <==> item.encrypted !in [None, Some("")])
              && (sent.encrypted.Some? ==> sent.encrypted == item.encrypted)
  {
    assert [item][..0] == [];
  }
}
