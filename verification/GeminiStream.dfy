/** Reading a Gemini answer: conformance/protocols/clients.ts, `geminiConversation`. Chunks and
    the whole response go through the same `take`; the parts are then folded into one Turn. */
module GeminiStream {
  import opened CodeUnits
  import opened Optional

  /** `arguments` is the JSON text of the call's arguments. */
  datatype FunctionCall = FunctionCall(id: Option<string>, name: Option<string>, arguments: Option<string>)
  datatype Part = Part(call: Option<FunctionCall>, thought: bool, text: Option<CodeText>)
  datatype Candidate = Candidate(parts: seq<Part>, finish: Option<string>)
  datatype Counts = Counts(prompt: Option<nat>, candidates: Option<nat>, thoughts: Option<nat>, cached: Option<nat>)
  datatype Chunk = Chunk(candidate: Option<Candidate>, counts: Option<Counts>)

  datatype Call = Call(id: Option<string>, name: string, arguments: string)
  datatype Usage = Usage(input: nat, output: nat, cached: nat)
  datatype Turn = Turn(text: CodeText, reasoning: CodeText, calls: seq<Call>, finish: string, usage: Option<Usage>)

  const FINISH: map<string, string> :=
    map["STOP" := "stop", "MAX_TOKENS" := "length", "SAFETY" := "content_filter",
        "PROHIBITED_CONTENT" := "content_filter"]

  // ---------- What the loops compute ----------

  /** What `take` has gathered. */
  datatype Taken = Taken(parts: seq<Part>, finish: Option<string>, counts: Option<Counts>)

  const NOTHING := Taken([], None, None)

  function Take(t: Taken, chunk: Chunk): Taken {
    var parts := if chunk.candidate.Some? then chunk.candidate.value.parts else [];
    var finish := if chunk.candidate.Some? then chunk.candidate.value.finish else None;
    Taken(t.parts + parts, if finish.Some? && finish.value != "" then finish else t.finish,
          if chunk.counts.Some? then chunk.counts else t.counts)
  }

  function TakeAll(chunks: seq<Chunk>): Taken {
    if chunks == [] then NOTHING else Take(TakeAll(chunks[..|chunks| - 1]), chunks[|chunks| - 1])
  }

  datatype Said = Said(text: CodeText, reasoning: CodeText, calls: seq<Call>)

  function ReadCall(call: FunctionCall): Call {
    Call(call.id, call.name.Or(""), call.arguments.Or("{}"))
  }

  function WithPart(s: Said, part: Part): Said {
    if part.call.Some? then s.(calls := s.calls + [ReadCall(part.call.value)])
    else if part.thought then s.(reasoning := s.reasoning + part.text.Or([]))
    else s.(text := s.text + part.text.Or([]))
  }

  function Folded(parts: seq<Part>): Said {
    if parts == [] then Said([], [], []) else WithPart(Folded(parts[..|parts| - 1]), parts[|parts| - 1])
  }

  function Finished(finish: Option<string>, calls: seq<Call>): string {
    if finish.Some? && finish.value in FINISH then
      if FINISH[finish.value] == "stop" && calls != [] then "tool_calls" else FINISH[finish.value]
    else finish.Or("undefined")
  }

  function Counted(counts: Option<Counts>): Option<Usage> {
    if counts.None? then None
    else
      var c := counts.value;
      Some(Usage(c.prompt.Or(0), c.candidates.Or(0) + c.thoughts.Or(0), c.cached.Or(0)))
  }

  function Reduced(t: Taken): Turn {
    var said := Folded(t.parts);
    Turn(said.text, said.reasoning, said.calls, Finished(t.finish, said.calls), Counted(t.counts))
  }

  /** `contents` holds the parts of every answer, to be sent back. */
  class GeminiConversation {
    var contents: seq<seq<Part>>

    constructor ()
      ensures contents == []
    {
      contents := [];
    }

    method SendStreamed(chunks: seq<Chunk>) returns (turn: Turn)
      modifies this
      ensures turn == Reduced(TakeAll(chunks))
      ensures contents == old(contents) + [TakeAll(chunks).parts]
    {
      var taken := NOTHING;
      for i := 0 to |chunks|
        invariant taken == TakeAll(chunks[..i]) && contents == old(contents)
      {
        assert chunks[..i + 1][..i] == chunks[..i];
        taken := Take(taken, chunks[i]);
      }
      assert chunks[..|chunks|] == chunks;
      turn := Keep(taken);
    }

    method SendWhole(response: Chunk) returns (turn: Turn)
      modifies this
      ensures turn == Reduced(TakeAll([response]))
      ensures contents == old(contents) + [TakeAll([response]).parts]
    {
      assert [response][..0] == [];
      turn := Keep(Take(NOTHING, response));
    }

    method Keep(taken: Taken) returns (turn: Turn)
      modifies this
      ensures turn == Reduced(taken) && contents == old(contents) + [taken.parts]
      ensures taken.finish == Some("STOP") ==> turn.finish == if turn.calls != [] then "tool_calls" else "stop"
      ensures taken.finish == Some("MAX_TOKENS") ==> turn.finish == "length"
      ensures taken.finish in [Some("SAFETY"), Some("PROHIBITED_CONTENT")] ==> turn.finish == "content_filter"
      ensures taken.finish.Some? &&
              taken.finish.value !in ["STOP", "MAX_TOKENS", "SAFETY", "PROHIBITED_CONTENT"] ==>
                turn.finish == taken.finish.value
      ensures taken.finish.None? ==> turn.finish == "undefined"
      ensures turn.usage.Some? <==> taken.counts.Some?
      ensures taken.counts.Some? ==>
                var counts, usage := taken.counts.value, turn.usage.value;
                && usage.input == (if counts.prompt.Some? then counts.prompt.value else 0)
                && usage.output == (if counts.candidates.Some? then counts.candidates.value else 0)
                                   + (if counts.thoughts.Some? then counts.thoughts.value else 0)
                && usage.cached == (if counts.cached.Some? then counts.cached.value else 0)
    {
      contents := contents + [taken.parts];
      var text: CodeText, reasoning: CodeText := [], [];
      var calls: seq<Call> := [];
      for i := 0 to |taken.parts|
        invariant Said(text, reasoning, calls) == Folded(taken.parts[..i])
        invariant contents == old(contents) + [taken.parts]
      {
        assert taken.parts[..i + 1][..i] == taken.parts[..i];
        var part := taken.parts[i];
        if part.call.Some? {
          calls := calls + [ReadCall(part.call.value)];
        } else if part.thought {
          reasoning := reasoning + part.text.Or([]);
        } else {
          text := text + part.text.Or([]);
        }
      }
      assert taken.parts[..|taken.parts|] == taken.parts;
      turn := Turn(text, reasoning, calls, Finished(taken.finish, calls), Counted(taken.counts));
    }
  }

  // ---------- Where the chunks are cut does not matter ----------

  /** The smallest pieces a stream can be cut into. */
  datatype Atom = TextUnit(unit: CodeUnit) | ThoughtUnit(unit: CodeUnit) | WholeCall(call: FunctionCall)

  function Units(text: CodeText, thought: bool): seq<Atom> {
    seq(|text|, k requires 0 <= k < |text| => if thought then ThoughtUnit(text[k]) else TextUnit(text[k]))
  }

  function AtomsOf(part: Part): seq<Atom> {
    if part.call.Some? then [WholeCall(part.call.value)] else Units(part.text.Or([]), part.thought)
  }

  function Atoms(parts: seq<Part>): seq<Atom> {
    if parts == [] then [] else Atoms(parts[..|parts| - 1]) + AtomsOf(parts[|parts| - 1])
  }

  function WithAtom(s: Said, atom: Atom): Said {
    match atom
    case TextUnit(unit) => s.(text := s.text + [unit])
    case ThoughtUnit(unit) => s.(reasoning := s.reasoning + [unit])
    case WholeCall(call) => s.(calls := s.calls + [ReadCall(call)])
  }

  function WithAtoms(s: Said, atoms: seq<Atom>): Said {
    if atoms == [] then s else WithAtom(WithAtoms(s, atoms[..|atoms| - 1]), atoms[|atoms| - 1])
  }

  lemma {:induction false} AtomsJoin(s: Said, a: seq<Atom>, b: seq<Atom>)
    ensures WithAtoms(s, a + b) == WithAtoms(WithAtoms(s, a), b)
  {
    var ab := a + b;
    if b == [] {
      assert ab == a;
    } else {
      assert ab[..|ab| - 1] == a + b[..|b| - 1] && ab[|ab| - 1] == b[|b| - 1];
      AtomsJoin(s, a, b[..|b| - 1]);
    }
  }

  lemma {:induction false} UnitsRead(s: Said, text: CodeText, thought: bool)
    ensures WithAtoms(s, Units(text, thought)) ==
        if thought then s.(reasoning := s.reasoning + text) else s.(text := s.text + text)
  {
    if text != [] {
      var front := text[..|text| - 1];
      assert text == front + [text[|text| - 1]];
      assert Units(text, thought)[..|text| - 1] == Units(front, thought);
      UnitsRead(s, front, thought);
    }
  }

  lemma {:induction false} FoldedReadsAtoms(parts: seq<Part>)
    ensures Folded(parts) == WithAtoms(Said([], [], []), Atoms(parts))
  {
    if parts != [] {
      var front, last := parts[..|parts| - 1], parts[|parts| - 1];
      FoldedReadsAtoms(front);
      if last.call.Some? {
        var atoms := [WholeCall(last.call.value)];
        assert atoms[..0] == [];
        AtomsJoin(Said([], [], []), Atoms(front), atoms);
      } else {
        AtomsJoin(Said([], [], []), Atoms(front), Units(last.text.Or([]), last.thought));
        UnitsRead(Folded(front), last.text.Or([]), last.thought);
      }
    }
  }

  /** Cut anywhere, even inside a text: the same text, reasoning and calls; and with the same
      last finish and counts, the same Turn. */
  lemma CutsDoNotMatter(a: seq<Chunk>, b: seq<Chunk>)
    requires Atoms(TakeAll(a).parts) == Atoms(TakeAll(b).parts)
    ensures Folded(TakeAll(a).parts) == Folded(TakeAll(b).parts)
    ensures TakeAll(a).finish == TakeAll(b).finish && TakeAll(a).counts == TakeAll(b).counts ==>
              Reduced(TakeAll(a)) == Reduced(TakeAll(b))
  {
    FoldedReadsAtoms(TakeAll(a).parts);
    FoldedReadsAtoms(TakeAll(b).parts);
  }

  lemma {:induction false} TakeAllJoins(a: seq<Chunk>, b: seq<Chunk>)
    ensures TakeAll(a + b).parts == TakeAll(a).parts + TakeAll(b).parts
    ensures TakeAll(a + b).finish == if TakeAll(b).finish.Some? then TakeAll(b).finish else TakeAll(a).finish
    ensures TakeAll(a + b).counts == if TakeAll(b).counts.Some? then TakeAll(b).counts else TakeAll(a).counts
  {
    var ab := a + b;
    if b == [] {
      assert ab == a;
    } else {
      assert ab[..|ab| - 1] == a + b[..|b| - 1] && ab[|ab| - 1] == b[|b| - 1];
      TakeAllJoins(a, b[..|b| - 1]);
    }
  }

  /** One chunk gives its parts, its finish unless that is empty, and its counts; with `TakeAllJoins`
      that fixes what any stream gives. */
  lemma TakeOne(chunk: Chunk)
    ensures TakeAll([]) == Taken([], None, None)
    ensures var taken := TakeAll([chunk]);
            && taken.parts == (if chunk.candidate.Some? then chunk.candidate.value.parts else [])
            && (taken.finish.Some? <==> chunk.candidate.Some? && chunk.candidate.value.finish !in [None, Some("")])
            && (taken.finish.Some? ==> taken.finish == chunk.candidate.value.finish)
            && taken.counts == chunk.counts
  {
    assert [chunk][..0] == [];
  }

  /** What is said first, and then the rest. */
  function Then(first: Said, second: Said): Said {
    Said(first.text + second.text, first.reasoning + second.reasoning, first.calls + second.calls)
  }

  lemma ThenAPart(first: Said, second: Said, part: Part)
    ensures WithPart(Then(first, second), part) == Then(first, WithPart(second, part))
    ensures Then(first, Said([], [], [])) == first
  {
  }

  /** Parts are read one after the other. */
  lemma {:induction false} FoldedJoins(a: seq<Part>, b: seq<Part>)
    ensures Folded(a + b) == Then(Folded(a), Folded(b))
  {
    hide WithPart, Then;
    var ab := a + b;
    if b == [] {
      assert ab == a;
      ThenAPart(Folded(a), Folded(b), Part(None, false, None));
    } else {
      assert ab[..|ab| - 1] == a + b[..|b| - 1] && ab[|ab| - 1] == b[|b| - 1];
      FoldedJoins(a, b[..|b| - 1]);
      ThenAPart(Folded(a), Folded(b[..|b| - 1]), b[|b| - 1]);
    }
  }

  /** A part is a call, or else thought or said. */
  lemma FoldedOne(part: Part)
    ensures Folded([]) == Said([], [], [])
    ensures var said := Folded([part]); var text := if part.text.Some? then part.text.value else [];
            && said.text == (if part.call.None? && !part.thought then text else [])
            && said.reasoning == (if part.call.None? && part.thought then text else [])
            && (part.call.None? ==> said.calls == [])
            && (part.call.Some? ==>
                  var call := part.call.value;
                  && |said.calls| == 1 && said.calls[0].id == call.id
                  && said.calls[0].name == (if call.name.Some? then call.name.value else "")
                  && said.calls[0].arguments == (if call.arguments.Some? then call.arguments.value else "{}"))
  {
    assert [part][..0] == [];
  }

  lemma {:induction false} PartsJoin(a: seq<Part>, b: seq<Part>)
    ensures Atoms(a + b) == Atoms(a) + Atoms(b)
  {
    hide AtomsOf;
    var ab := a + b;
    if b == [] {
      assert ab == a;
    } else {
      var last := b[|b| - 1];
      assert ab[..|ab| - 1] == a + b[..|b| - 1] && ab[|ab| - 1] == last;
      PartsJoin(a, b[..|b| - 1]);
    }
  }

  /** One chunk split in two, the text of a part included, anywhere in a stream: the same Turn. */
  lemma SplittingAChunk(before: seq<Chunk>, whole: Chunk, first: Chunk, second: Chunk, after: seq<Chunk>)
    requires Atoms(TakeAll([whole]).parts) == Atoms(TakeAll([first]).parts + TakeAll([second]).parts)
    requires TakeAll([first, second]).finish == TakeAll([whole]).finish
    requires TakeAll([first, second]).counts == TakeAll([whole]).counts
    ensures Reduced(TakeAll(before + [whole] + after)) == Reduced(TakeAll(before + [first, second] + after))
  {
    assert [first] + [second] == [first, second];
    TakeAllJoins([first], [second]);
    TakeAllJoins(before, [whole]);
    TakeAllJoins(before, [first, second]);
    TakeAllJoins(before + [whole], after);
    TakeAllJoins(before + [first, second], after);
    hide TakeAll;
    PartsJoin(TakeAll(before).parts, TakeAll([whole]).parts);
    PartsJoin(TakeAll(before).parts, TakeAll([first, second]).parts);
    PartsJoin(TakeAll(before + [whole]).parts, TakeAll(after).parts);
    PartsJoin(TakeAll(before + [first, second]).parts, TakeAll(after).parts);
    CutsDoNotMatter(before + [whole] + after, before + [first, second] + after);
  }
}
