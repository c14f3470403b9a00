/** Options before the command: apps/hh/src/main.ts, `commandFirst` and `main`. */
module CommandLine {
  import opened Optional
  import opened Text

  /** The common options; true when one takes a value. */
  const COMMON_OPTIONS: map<string, bool> :=
    map["--url" := true, "--data-dir" := true, "--json" := false, "--yes" := false, "--non-interactive" := false]

  const COMMANDS: set<string> := {
    "serve", "version", "benchmark", "tools", "config", "console", "init", "library", "tui", "rollout",
    "agents", "wire", "use", "unwire", "profile", "backup", "restore", "sync",
    "status", "provider", "import", "credential", "key", "group", "model", "catalog", "usage", "gateway", "subscription"
  }

  predicate Dashed(word: string) {
    |word| > 0 && word[0] == '-'
  }

  function OptionName(word: string): string {
    word[..IndexOf(word, '=')]
  }

  /** A word that ends the options before the command: the command, or a request `main` answers. */
  predicate EndsOptions(word: string) {
    !Dashed(word) || word in ["--help", "-h", "--version"]
  }

  /** The option's value is the next word. */
  predicate TakesNext(table: map<string, bool>, word: string) {
    OptionName(word) in table && table[OptionName(word)] && '=' !in word
  }

  // ---------- commandFirst ----------

  datatype Rewriting = Moved(words: seq<string>) | Unknown(word: string) | NeedsValue(word: string) | NoCommand

  /** `options` before the first `--` of `rest`, or at its end. */
  function Placed(rest: seq<string>, options: seq<string>): seq<string> {
    var end := IndexOf(rest, "--");
    rest[..end] + options + rest[end..]
  }

  /** `words` is a block of common options, each with its value. */
  predicate IsBlock(words: seq<string>)
    decreases words
  {
    words == [] ||
    (Dashed(words[0]) && OptionName(words[0]) in COMMON_OPTIONS &&
     (if TakesNext(COMMON_OPTIONS, words[0]) then |words| >= 2 && IsBlock(words[2..]) else IsBlock(words[1..])))
  }

  /** How many words the options before the command take, or the word that is refused. */
  datatype Scan = Stops(at: nat) | Refuses(why: Rewriting)

  function Shifted(scan: Scan, n: nat): Scan {
    if scan.Stops? then Stops(scan.at + n) else scan
  }

  function ScanOptions(argv: seq<string>): (scan: Scan)
    ensures scan.Stops? ==> scan.at <= |argv|
    ensures scan.Refuses? ==> !scan.why.Moved?
    decreases argv
  {
    if argv == [] || EndsOptions(argv[0]) then Stops(0)
    else if OptionName(argv[0]) !in COMMON_OPTIONS then Refuses(Unknown(argv[0]))
    else if !TakesNext(COMMON_OPTIONS, argv[0]) then Shifted(ScanOptions(argv[1..]), 1)
    else if |argv| == 1 then Refuses(NeedsValue(argv[0]))
    else Shifted(ScanOptions(argv[2..]), 2)
  }

  function CommandFirst(argv: seq<string>): Rewriting {
    var scan := ScanOptions(argv);
    if scan.Refuses? then scan.why
    else if scan.at == |argv| then NoCommand
    else Moved(Placed(argv[scan.at..], argv[..scan.at]))
  }

  lemma ScanStep(argv: seq<string>, at: nat)
    requires at < |argv| && !EndsOptions(argv[at])
    ensures ScanOptions(argv[at..]) ==
              if OptionName(argv[at]) !in COMMON_OPTIONS then Refuses(Unknown(argv[at]))
              else if !TakesNext(COMMON_OPTIONS, argv[at]) then Shifted(ScanOptions(argv[at + 1..]), 1)
              else if at + 1 == |argv| then Refuses(NeedsValue(argv[at]))
              else Shifted(ScanOptions(argv[at + 2..]), 2)
  {
    hide IndexOf, COMMON_OPTIONS;
    var rest := argv[at..];
    assert rest[1..] == argv[at + 1..];
    if at + 2 <= |argv| { assert rest[2..] == argv[at + 2..]; }
  }

  lemma ScanEnds(argv: seq<string>, at: nat)
    requires at <= |argv| && (at < |argv| ==> EndsOptions(argv[at]))
    ensures ScanOptions(argv[at..]) == Stops(0)
  {
  }

  /** The loop over `at` that pushes onto `options`. */
  method MoveCommandFirst(argv: seq<string>) returns (r: Rewriting)
    ensures r == CommandFirst(argv)
  {
    hide ScanOptions, IndexOf, COMMON_OPTIONS;
    var options: seq<string> := [];
    var at := 0;
    assert argv[0..] == argv;
    while at < |argv| && !EndsOptions(argv[at])
      invariant at <= |argv| && options == argv[..at]
      invariant Shifted(ScanOptions(argv[at..]), at) == ScanOptions(argv)
      decreases |argv| - at
    {
      ScanStep(argv, at);
      var word := argv[at];
      if OptionName(word) !in COMMON_OPTIONS {
        return Unknown(word);
      }
      if COMMON_OPTIONS[OptionName(word)] && '=' !in word {
        if at + 1 == |argv| {
          return NeedsValue(word);
        }
        options := options + [word, argv[at + 1]];
        at := at + 2;
      } else {
        options := options + [word];
        at := at + 1;
      }
    }
    ScanEnds(argv, at);
    var rest := argv[at..];
    if rest == [] {
      return NoCommand;
    }
    var end := IndexOf(rest, "--");
    r := Moved(if end == |rest| then rest + options else rest[..end] + options + rest[end..]);
  }

  // ---------- What is accepted, and what it becomes ----------

  lemma BlockStarts(options: seq<string>)
    requires IsBlock(options) && options != []
    ensures Dashed(options[0]) && OptionName(options[0]) in COMMON_OPTIONS
  {
  }

  lemma WithoutEquals(word: string)
    ensures '=' !in word ==> OptionName(word) == word
  {
  }

  lemma NotCommon(word: string)
    ensures word in ["--help", "-h", "--version", "--"] ==> '=' !in word && word !in COMMON_OPTIONS
  {
  }

  lemma BlockWordsAreOptions(options: seq<string>)
    requires IsBlock(options) && options != []
    ensures !EndsOptions(options[0]) && options[0] != "--"
  {
    hide IsBlock, IndexOf;
    var word := options[0];
    assert OptionName(word) in COMMON_OPTIONS by { BlockStarts(options); }
    WithoutEquals(word);
    assert '=' in word || word in COMMON_OPTIONS;
    hide COMMON_OPTIONS;
    NotCommon(word);
  }

  lemma {:induction false} ScanStopsAfterTheBlock(options: seq<string>, rest: seq<string>)
    requires IsBlock(options) && (rest == [] || EndsOptions(rest[0]))
    ensures ScanOptions(options + rest) == Stops(|options|)
    decreases options
  {
    var argv := options + rest;
    if options == [] {
      assert argv == rest;
    } else {
      BlockWordsAreOptions(options);
      assert argv[0] == options[0];
      if TakesNext(COMMON_OPTIONS, options[0]) {
        assert argv[2..] == options[2..] + rest;
        ScanStopsAfterTheBlock(options[2..], rest);
      } else {
        assert argv[1..] == options[1..] + rest;
        ScanStopsAfterTheBlock(options[1..], rest);
      }
    }
  }

  lemma OneOptionMore(words: seq<string>, n: nat)
    requires words != [] && !EndsOptions(words[0]) && OptionName(words[0]) in COMMON_OPTIONS
    requires n == (if TakesNext(COMMON_OPTIONS, words[0]) then 2 else 1) && n <= |words| && IsBlock(words[n..])
    ensures IsBlock(words)
  {
    hide TakesNext, OptionName, COMMON_OPTIONS;
  }

  lemma EmptyBlock()
    ensures IsBlock([])
  {
  }

  lemma {:induction false} ScanFindsABlock(argv: seq<string>)
    requires ScanOptions(argv).Stops?
    ensures var at := ScanOptions(argv).at;
            at <= |argv| && IsBlock(argv[..at]) && (at < |argv| ==> EndsOptions(argv[at]))
    decreases argv
  {
    hide ScanOptions, IsBlock, COMMON_OPTIONS, TakesNext, OptionName, EndsOptions;
    assert argv[0..] == argv;
    if argv == [] || EndsOptions(argv[0]) {
      ScanEnds(argv, 0);
      EmptyBlock();
      assert argv[..0] == [];
    } else {
      ScanStep(argv, 0);
      var n := if TakesNext(COMMON_OPTIONS, argv[0]) then 2 else 1;
      ScanFindsABlock(argv[n..]);
      var block := argv[..ScanOptions(argv).at];
      assert block[n..] == argv[n..][..|block| - n];
      OneOptionMore(block, n);
    }
  }

  /** `argv` is common options, then a word that ends them and its arguments. */
  predicate Splits(argv: seq<string>, options: seq<string>, rest: seq<string>) {
    argv == options + rest && IsBlock(options) && rest != [] && EndsOptions(rest[0])
  }

  /** A line is rewritten exactly when it splits so, and then into the same words with the
      options before the first `--` of the rest. */
  lemma RewrittenExactly(argv: seq<string>, words: seq<string>)
    ensures CommandFirst(argv) == Moved(words) <==>
              exists options, rest :: Splits(argv, options, rest) && words == Placed(rest, options)
  {
    if CommandFirst(argv) == Moved(words) {
      ScanFindsABlock(argv);
      var at := ScanOptions(argv).at;
      assert Splits(argv, argv[..at], argv[at..]);
    }
    forall options, rest | Splits(argv, options, rest) ensures CommandFirst(argv) == Moved(Placed(rest, options)) {
      ScanStopsAfterTheBlock(options, rest);
      assert argv[|options|..] == rest && argv[..|options|] == options;
    }
  }

  lemma PlacedIs(before: seq<string>, after: seq<string>, options: seq<string>)
    ensures var words := before + options + after;
            && multiset(words) == multiset(before + after) + multiset(options)
            && words[|before|..|before| + |options|] == options
            && words[..|before|] == before && words[|before| + |options|..] == after
  {
  }

  /** The words are the same, the options stay together in order, and so does the rest. */
  lemma PlacedKeepsTheWords(rest: seq<string>, options: seq<string>)
    ensures multiset(Placed(rest, options)) == multiset(rest) + multiset(options)
    ensures var end := IndexOf(rest, "--"); var words := Placed(rest, options);
            && words[end..end + |options|] == options
            && words[..end] + words[end + |options|..] == rest
  {
    hide IndexOf;
    var end := IndexOf(rest, "--");
    PlacedIs(rest[..end], rest[end..], options);
    assert rest == rest[..end] + rest[end..];
  }

  // ---------- main ----------

  datatype Ran = Usage | Version(argv: seq<string>) | Refused(why: Rewriting) | NoSuchCommand(given: Option<string>)
               | Command(name: string, argv: seq<string>)

  /** `main` rewrites the line and calls itself. */
  predicate CallsItself(argv: seq<string>) {
    argv != [] && !EndsOptions(argv[0]) && CommandFirst(argv).Moved?
  }

  /** A word that ends the options stays first. */
  lemma PlacedBehind(rest: seq<string>, options: seq<string>)
    requires rest != [] && EndsOptions(rest[0])
    ensures Placed(rest, options) != [] && Placed(rest, options)[0] == rest[0]
  {
    assert rest[0] != "--" by { assert !EndsOptions("--"); }
    hide EndsOptions;
    assert IndexOf(rest, "--") > 0;
  }

  lemma RewrittenLinesRunAtOnce(argv: seq<string>)
    requires CommandFirst(argv).Moved?
    ensures !CallsItself(CommandFirst(argv).words)
    ensures var at := ScanOptions(argv).at; at < |argv| && CommandFirst(argv).words[0] == argv[at]
  {
    hide ScanOptions, IndexOf, IsBlock, COMMON_OPTIONS;
    ScanFindsABlock(argv);
    var at := ScanOptions(argv).at;
    var rest := argv[at..];
    assert rest[0] == argv[at];
    PlacedBehind(rest, argv[..at]);
  }

  /** `main`; its measure shows that it calls itself at most once. */
  function Dispatch(argv: seq<string>): Ran
    decreases CallsItself(argv)
  {
    if argv == [] then NoSuchCommand(None)
    else if argv[0] in ["--help", "-h"] then Usage
    else if argv[0] == "--version" then Version(argv)
    else if Dashed(argv[0]) then
      var moved := CommandFirst(argv);
      if !moved.Moved? then Refused(moved)
      else
        RewrittenLinesRunAtOnce(argv);
        Dispatch(moved.words)
    else if argv[0] in COMMANDS then Command(argv[0], argv)
    else NoSuchCommand(Some(argv[0]))
  }

  /** `hh OPTIONS command ...` runs exactly what `hh command ... OPTIONS` runs. */
  lemma OptionsMayComeFirst(options: seq<string>, rest: seq<string>)
    requires IsBlock(options) && rest != [] && EndsOptions(rest[0])
    ensures Dispatch(options + rest) == Dispatch(Placed(rest, options))
  {
    ScanStopsAfterTheBlock(options, rest);
    var argv := options + rest;
    assert argv[|options|..] == rest && argv[..|options|] == options;
    if options == [] {
      assert argv == rest && Placed(rest, []) == rest;
    } else {
      BlockWordsAreOptions(options);
      assert argv[0] == options[0];
    }
  }

  // ---------- What main answers ----------

  /** The common options by name, and those that take a value. */
  lemma CommonOptionsAre(name: string)
    ensures name in COMMON_OPTIONS <==>
              name == "--url" || name == "--data-dir" || name == "--json" || name == "--yes"
                  || name == "--non-interactive"
    ensures name in COMMON_OPTIONS && COMMON_OPTIONS[name] <==> name == "--url" || name == "--data-dir"
  {
  }

  lemma OptionsThatTakeTheNextWord(word: string)
    ensures TakesNext(COMMON_OPTIONS, word) <==> word in ["--url", "--data-dir"]
  {
    hide COMMON_OPTIONS;
    assert '=' !in "--url" && '=' !in "--data-dir";
    CommonOptionsAre(OptionName(word));
    WithoutEquals(word);
  }

  /** A common option is its name, alone or with its value behind `=`. */
  lemma OptionNameIs(word: string, name: string)
    requires '=' !in name
    ensures OptionName(word) == name <==> word == name || name + "=" <= word
  {
    WithoutEquals(word);
    var at := IndexOf(word, '=');
    if OptionName(word) == name && at < |word| {
      assert word == name + "=" + word[at + 1..];
    }
    if name + "=" <= word {
      assert word == name + "=" + word[|name| + 1..];
      IndexAfter(name, '=', word[|name| + 1..]);
    }
  }

  /** Why a line has no command: behind a block comes an option that is not a common one, or one whose
      value is missing, or nothing. */
  predicate Misses(argv: seq<string>, options: seq<string>, why: Rewriting) {
    && options <= argv && IsBlock(options)
    && match why
       case Unknown(word) => options + [word] <= argv && !EndsOptions(word) && OptionName(word) !in COMMON_OPTIONS
       case NeedsValue(word) => argv == options + [word] && word in ["--url", "--data-dir"]
       case NoCommand => argv == options
       case Moved(_) => false
  }

  lemma {:induction false} RefusedBehindABlock(argv: seq<string>)
    requires ScanOptions(argv).Refuses?
    ensures exists options :: Misses(argv, options, ScanOptions(argv).why)
    decreases argv
  {
    hide ScanOptions, IsBlock, COMMON_OPTIONS, TakesNext, OptionName, EndsOptions;
    assert argv[0..] == argv;
    if argv == [] || EndsOptions(argv[0]) {
      ScanEnds(argv, 0);
    } else {
      ScanStep(argv, 0);
      OptionsThatTakeTheNextWord(argv[0]);
      EmptyBlock();
      var why := ScanOptions(argv).why;
      var n := if TakesNext(COMMON_OPTIONS, argv[0]) then 2 else 1;
      if OptionName(argv[0]) !in COMMON_OPTIONS || |argv| < n {
        assert Misses(argv, [], why);
      } else {
        RefusedBehindABlock(argv[n..]);
        var rest :| Misses(argv[n..], rest, why);
        var options := argv[..n] + rest;
        assert argv == argv[..n] + argv[n..] && options[n..] == rest;
        OneOptionMore(options, n);
        assert Misses(argv, options, why);
      }
    }
  }

  /** What comes behind a block of options is scanned alone. */
  lemma {:induction false} ScanPassesABlock(options: seq<string>, rest: seq<string>)
    requires IsBlock(options)
    ensures ScanOptions(options + rest) == Shifted(ScanOptions(rest), |options|)
    decreases options
  {
    var argv := options + rest;
    if options == [] {
      assert argv == rest;
    } else {
      BlockWordsAreOptions(options);
      assert argv[0] == options[0];
      if TakesNext(COMMON_OPTIONS, options[0]) {
        assert argv[2..] == options[2..] + rest;
        ScanPassesABlock(options[2..], rest);
      } else {
        assert argv[1..] == options[1..] + rest;
        ScanPassesABlock(options[1..], rest);
      }
    }
  }

  lemma TakersAreOptions(word: string)
    ensures TakesNext(COMMON_OPTIONS, word) ==> OptionName(word) in COMMON_OPTIONS && !EndsOptions(word)
  {
    assert !EndsOptions("--url") && !EndsOptions("--data-dir");
    OptionsThatTakeTheNextWord(word);
    hide COMMON_OPTIONS, EndsOptions, IndexOf;
  }

  lemma MissingIsRefused(argv: seq<string>, options: seq<string>, why: Rewriting)
    requires Misses(argv, options, why)
    ensures CommandFirst(argv) == why
  {
    hide IsBlock, COMMON_OPTIONS, TakesNext, OptionName, EndsOptions;
    var rest := argv[|options|..];
    assert argv == options + rest;
    ScanPassesABlock(options, rest);
    if rest != [] {
      assert rest[0..] == rest;
      OptionsThatTakeTheNextWord(rest[0]);
      TakersAreOptions(rest[0]);
      ScanStep(rest, 0);
    }
  }

  /** A line is refused for a reason exactly when that is what it misses. */
  lemma RefusedExactly(argv: seq<string>, why: Rewriting)
    requires !why.Moved?
    ensures CommandFirst(argv) == why <==> exists options :: Misses(argv, options, why)
  {
    hide ScanOptions, IsBlock, IndexOf, COMMON_OPTIONS, TakesNext, OptionName, EndsOptions;
    if CommandFirst(argv) == why {
      if ScanOptions(argv).Refuses? {
        RefusedBehindABlock(argv);
      } else {
        ScanFindsABlock(argv);
        assert argv[..|argv|] == argv;
        assert Misses(argv, argv, NoCommand);
      }
    }
    forall options | Misses(argv, options, why) ensures CommandFirst(argv) == why {
      MissingIsRefused(argv, options, why);
    }
  }

  /** What a line is answered, by the block of options it starts with and the words behind it. */
  ghost predicate Answers(argv: seq<string>, ran: Ran, options: seq<string>, rest: seq<string>) {
    match ran
    case Usage => Splits(argv, options, rest) && rest[0] in ["--help", "-h"]
    case Version(words) => Splits(argv, options, rest) && rest[0] == "--version" && words == Placed(rest, options)
    case Command(name, words) =>
      Splits(argv, options, rest) && rest[0] == name && name in COMMANDS && words == Placed(rest, options)
    case NoSuchCommand(given) =>
      if argv == [] then given == None
      else Splits(argv, options, rest) && given == Some(rest[0]) && rest[0] !in COMMANDS && !Dashed(rest[0])
    case Refused(why) => argv != [] && Misses(argv, options, why)
  }

  lemma NamesAreNoOptions(name: string)
    ensures name in COMMANDS ==> !Dashed(name)
  {
  }

  lemma RunsBehindItsOptions(options: seq<string>, rest: seq<string>)
    requires Splits(options + rest, options, rest)
    ensures Dispatch(options + rest) ==
              if rest[0] in ["--help", "-h"] then Usage
              else if rest[0] == "--version" then Version(Placed(rest, options))
              else if rest[0] in COMMANDS then Command(rest[0], Placed(rest, options))
              else NoSuchCommand(Some(rest[0]))
  {
    OptionsMayComeFirst(options, rest);
    PlacedBehind(rest, options);
    hide IsBlock, IndexOf, COMMANDS, COMMON_OPTIONS;
  }

  lemma RefusedLines(argv: seq<string>, options: seq<string>, why: Rewriting)
    requires argv != [] && Misses(argv, options, why)
    ensures Dispatch(argv) == Refused(why)
  {
    MissingIsRefused(argv, options, why);
    if options != [] {
      BlockWordsAreOptions(options);
      assert argv[0] == options[0];
    } else {
      hide IsBlock, IndexOf, COMMANDS, COMMON_OPTIONS, CommandFirst;
      if why.NeedsValue? {
        assert argv == [why.word] && Dashed("--url") && Dashed("--data-dir");
      }
    }
  }

  lemma AnsweredSo(argv: seq<string>, ran: Ran, options: seq<string>, rest: seq<string>)
    requires Answers(argv, ran, options, rest)
    ensures Dispatch(argv) == ran
  {
    if argv == [] {
      if !ran.NoSuchCommand? { assert false; }
    } else {
      hide Dispatch, IsBlock, Placed, IndexOf, COMMANDS, COMMON_OPTIONS, ScanOptions, CommandFirst;
      if ran.Refused? {
        RefusedLines(argv, options, ran.why);
      } else {
        RunsBehindItsOptions(options, rest);
        NamesAreNoOptions(rest[0]);
      }
    }
  }

  lemma AnswersBehindItsOptions(options: seq<string>, rest: seq<string>)
    requires Splits(options + rest, options, rest)
    ensures Answers(options + rest, Dispatch(options + rest), options, rest)
  {
    hide Dispatch, IsBlock, Placed, IndexOf, COMMANDS, Dashed;
    RunsBehindItsOptions(options, rest);
  }

  lemma RefusalAnswers(argv: seq<string>, options: seq<string>, why: Rewriting)
    requires argv != [] && Misses(argv, options, why)
    ensures Answers(argv, Refused(why), options, [])
  {
  }

  lemma AnsweredBehind(argv: seq<string>) returns (options: seq<string>, rest: seq<string>)
    ensures Answers(argv, Dispatch(argv), options, rest)
  {
    options, rest := [], [];
    if argv != [] {
      hide Dispatch, Answers, Misses, IsBlock, Placed, IndexOf, COMMANDS, COMMON_OPTIONS, ScanOptions;
      var why := CommandFirst(argv);
      if why.Moved? {
        RewrittenExactly(argv, why.words);
        options, rest :| Splits(argv, options, rest) && why.words == Placed(rest, options);
        AnswersBehindItsOptions(options, rest);
      } else {
        RefusedExactly(argv, why);
        options :| Misses(argv, options, why);
        RefusedLines(argv, options, why);
        RefusalAnswers(argv, options, why);
      }
    }
  }

  /** Every outcome of `main`, exactly: by the block of options the line starts with and by the word
      behind it. */
  lemma AnsweredExactly(argv: seq<string>, ran: Ran)
    ensures Dispatch(argv) == ran <==> exists options, rest :: Answers(argv, ran, options, rest)
  {
    hide Dispatch, IsBlock, Placed, IndexOf, COMMANDS, COMMON_OPTIONS, ScanOptions, CommandFirst;
    if Dispatch(argv) == ran {
      var options, rest := AnsweredBehind(argv);
    }
    forall options, rest | Answers(argv, ran, options, rest) ensures Dispatch(argv) == ran {
      AnsweredSo(argv, ran, options, rest);
    }
  }

  /** A command runs with all the words of the line, its name first: as they were given when it was
      first there. */
  lemma CommandsGetEveryWord(argv: seq<string>)
    requires Dispatch(argv).Command?
    ensures var ran := Dispatch(argv);
            && ran.name in COMMANDS && ran.argv != [] && ran.argv[0] == ran.name
            && multiset(ran.argv) == multiset(argv)
            && argv != [] && (argv[0] == ran.name ==> ran.argv == argv)
  {
    var options, rest := AnsweredBehind(argv);
    PlacedBehind(rest, options);
    PlacedKeepsTheWords(rest, options);
    NamesAreNoOptions(rest[0]);
    hide Dispatch, COMMANDS, COMMON_OPTIONS, IndexOf;
    if options != [] {
      BlockWordsAreOptions(options);
      assert argv[0] == options[0];
    } else {
      assert argv == rest && Placed(rest, []) == rest;
    }
    assert multiset(options + rest) == multiset(options) + multiset(rest);
  }

  // ---------- What the command reads ----------

  /** A command's parser as `parseArgs` of node:util reads words: options with their values, and
      positionals; after `--` every word is a positional. */
  datatype Token = Opt(name: string, value: Option<string>) | Pos(word: string)

  function Positionals(words: seq<string>): seq<Token> {
    seq(|words|, k requires 0 <= k < |words| => Pos(words[k]))
  }

  /** An option word that does not take the next word, with its inline value if it has one. */
  function Alone(word: string): Token {
    var at := IndexOf(word, '=');
    if at < |word| then Opt(word[..at], Some(word[at + 1..])) else Opt(word, None)
  }

  function Tokens(table: map<string, bool>, words: seq<string>): seq<Token>
    decreases words
  {
    if words == [] then []
    else if words[0] == "--" then Positionals(words[1..])
    else if !Dashed(words[0]) || words[0] == "-" then [Pos(words[0])] + Tokens(table, words[1..])
    else if TakesNext(table, words[0]) && |words| > 1 then
      [Opt(words[0], Some(words[1]))] + Tokens(table, words[2..])
    else [Alone(words[0])] + Tokens(table, words[1..])
  }

  /** An option word that stands alone: its name, and the value behind `=` if it has one. */
  lemma AloneIs(name: string, value: string)
    requires '=' !in name
    ensures Alone(name + "=" + value) == Opt(name, Some(value)) && Alone(name) == Opt(name, None)
  {
    IndexAfter(name, '=', value);
    assert IndexOf(name, '=') == |name|;
    hide IndexOf;
    var word := name + "=" + value;
    assert word[..|name|] == name && word[|name| + 1..] == value;
  }

  function Options(tokens: seq<Token>): seq<Token> {
    if tokens == [] then [] else (if tokens[0].Opt? then [tokens[0]] else []) + Options(tokens[1..])
  }

  function Words(tokens: seq<Token>): seq<Token> {
    if tokens == [] then [] else (if tokens[0].Pos? then [tokens[0]] else []) + Words(tokens[1..])
  }

  /** The command knows the common options as `main` does. */
  predicate KnowsCommon(table: map<string, bool>) {
    forall name :: name in COMMON_OPTIONS ==> name in table && table[name] == COMMON_OPTIONS[name]
  }

  /** No option of `words` is left waiting for a value. */
  predicate Complete(table: map<string, bool>, words: seq<string>)
    decreases words
  {
    words == [] ||
    (if Dashed(words[0]) && words[0] != "-" && TakesNext(table, words[0])
     then |words| > 1 && Complete(table, words[2..]) else Complete(table, words[1..]))
  }

  /** The first token of a line, whatever follows the words it is read from. */
  lemma OneToken(table: map<string, bool>, before: seq<string>, after: seq<string>) returns (token: Token, n: nat)
    requires before != [] && before[0] != "--" && Complete(table, before)
    ensures 0 < n <= |before| && Complete(table, before[n..])
    ensures Tokens(table, before + after) == [token] + Tokens(table, before[n..] + after)
    ensures Tokens(table, before) == [token] + Tokens(table, before[n..])
  {
    hide TakesNext, IndexOf;
    var words := before + after;
    assert words[0] == before[0] && words[1..] == before[1..] + after;
    if !Dashed(before[0]) || before[0] == "-" {
      token, n := Pos(before[0]), 1;
    } else if TakesNext(table, before[0]) {
      assert words[1] == before[1] && words[2..] == before[2..] + after;
      token, n := Opt(before[0], Some(before[1])), 2;
    } else {
      token, n := Alone(before[0]), 1;
    }
  }

  lemma JoinsThree(a: seq<Token>, b: seq<Token>, c: seq<Token>)
    ensures a + (b + c) == (a + b) + c
  {
  }

  lemma {:induction false} TokensJoin(table: map<string, bool>, before: seq<string>, after: seq<string>)
    requires "--" !in before && Complete(table, before)
    ensures Tokens(table, before + after) == Tokens(table, before) + Tokens(table, after)
    decreases before
  {
    if before == [] {
      assert before + after == after;
    } else {
      var token, n := OneToken(table, before, after);
      hide *;
      var rest := before[n..];
      assert forall word :: word in rest ==> word in before;
      TokensJoin(table, rest, after);
      JoinsThree([token], Tokens(table, rest), Tokens(table, after));
    }
  }

  /** How a command reads words that start with an option of a block. */
  lemma BlockToken(table: map<string, bool>, words: seq<string>, options: seq<string>) returns (token: Token)
    requires KnowsCommon(table) && IsBlock(options) && options != [] && options <= words
    ensures var n := if TakesNext(table, options[0]) then 2 else 1;
            && |options| >= n && IsBlock(options[n..])
            && Tokens(table, words) == [token] + Tokens(table, words[n..])
            && token == if n == 2 then Opt(options[0], Some(options[1])) else Alone(options[0])
  {
    BlockWordsAreOptions(options);
    assert options[0] != "-" by { WithoutEquals("-"); }
    hide IndexOf, COMMON_OPTIONS;
    assert TakesNext(table, options[0]) == TakesNext(COMMON_OPTIONS, options[0]);
    token := if TakesNext(table, options[0]) then Opt(options[0], Some(options[1])) else Alone(options[0]);
    assert words[0] == options[0] && (|options| > 1 ==> words[1] == options[1]);
  }

  lemma {:induction false} BlockTokensJoin(table: map<string, bool>, options: seq<string>, after: seq<string>)
    requires KnowsCommon(table) && IsBlock(options)
    ensures Tokens(table, options + after) == Tokens(table, options) + Tokens(table, after)
    ensures Words(Tokens(table, options)) == []
    decreases options
  {
    hide IndexOf, COMMON_OPTIONS;
    var words := options + after;
    if options == [] {
      assert words == after;
    } else {
      var n := if TakesNext(table, options[0]) then 2 else 1;
      var token := BlockToken(table, options, options);
      var same := BlockToken(table, words, options);
      assert words[n..] == options[n..] + after && words[0] == options[0] && words[n - 1] == options[n - 1];
      hide Tokens, TakesNext;
      BlockTokensJoin(table, options[n..], after);
      assert ([token] + Tokens(table, options[n..]))[1..] == Tokens(table, options[n..]);
    }
  }

  lemma {:induction false} OptionsJoin(a: seq<Token>, b: seq<Token>)
    ensures Options(a + b) == Options(a) + Options(b)
  {
    var c := a + b;
    if a == [] {
      assert c == b;
    } else {
      assert c[0] == a[0] && c[1..] == a[1..] + b;
      OptionsJoin(a[1..], b);
    }
  }

  lemma {:induction false} WordsJoin(a: seq<Token>, b: seq<Token>)
    ensures Words(a + b) == Words(a) + Words(b)
  {
    var c := a + b;
    if a == [] {
      assert c == b;
    } else {
      assert c[0] == a[0] && c[1..] == a[1..] + b;
      WordsJoin(a[1..], b);
    }
  }

  lemma {:induction false} PositionalsAreWords(words: seq<string>)
    ensures Options(Positionals(words)) == [] && Words(Positionals(words)) == Positionals(words)
  {
    if words != [] {
      assert Positionals(words)[1..] == Positionals(words[1..]);
      PositionalsAreWords(words[1..]);
    }
  }

  /** Of `moved` the command reads the positionals of `rest`, and `options` after its options. */
  predicate ReadLast(table: map<string, bool>, moved: seq<string>, rest: seq<string>, options: seq<string>) {
    && Words(Tokens(table, moved)) == Words(Tokens(table, rest))
    && Options(Tokens(table, moved)) == Options(Tokens(table, rest)) + Options(Tokens(table, options))
  }

  lemma AfterTheMark(table: map<string, bool>, words: seq<string>)
    requires words == [] || words[0] == "--"
    ensures Options(Tokens(table, words)) == []
  {
    if words != [] {
      PositionalsAreWords(words[1..]);
    }
  }

  lemma CompleteReadsLast(before: seq<Token>, options: seq<Token>, after: seq<Token>, table: map<string, bool>,
      words: seq<string>)
    requires after == Tokens(table, words) && (words == [] || words[0] == "--") && Words(options) == []
    ensures Words(before + (options + after)) == Words(before + after)
    ensures Options(before + (options + after)) == Options(before + after) + Options(options)
  {
    AfterTheMark(table, words);
    hide *;
    OptionsJoin(before, options + after);
    OptionsJoin(options, after);
    OptionsJoin(before, after);
    WordsJoin(before, options + after);
    WordsJoin(options, after);
    WordsJoin(before, after);
    assert Options(options) + [] == Options(options) && Options(before) + [] == Options(before);
    assert [] + Words(after) == Words(after);
  }

  lemma CompleteMoves(table: map<string, bool>, before: seq<string>, after: seq<string>, options: seq<string>)
    requires KnowsCommon(table) && IsBlock(options) && "--" !in before && (after != [] ==> after[0] == "--")
    requires Complete(table, before)
    ensures ReadLast(table, before + (options + after), before + after, options)
  {
    hide Tokens, IsBlock, Complete, Words, Options;
    TokensJoin(table, before, after);
    TokensJoin(table, before, options + after);
    BlockTokensJoin(table, options, after);
    CompleteReadsLast(Tokens(table, before), Tokens(table, options), Tokens(table, after), table, after);
  }

  /** Words that are not complete end with the option that waits. */
  lemma {:induction false} Waiting(table: map<string, bool>, words: seq<string>)
    returns (own: seq<string>, waiting: string)
    requires !Complete(table, words)
    ensures words == own + [waiting] && Complete(table, own)
    ensures Dashed(waiting) && waiting != "-" && TakesNext(table, waiting)
    decreases words
  {
    var n := if Dashed(words[0]) && words[0] != "-" && TakesNext(table, words[0]) then 2 else 1;
    if |words| < n {
      own, waiting := [], words[0];
    } else {
      own, waiting := Waiting(table, words[n..]);
      own := words[..n] + own;
      assert words == words[..n] + words[n..];
      assert own[n..] == own[n..];
      assert words[n..] == own[n..] + [waiting];
    }
  }

  lemma OwnThen(table: map<string, bool>, own: seq<string>, words: seq<string>)
    requires "--" !in own && Complete(table, own)
    ensures Options(Tokens(table, own + words)) == Options(Tokens(table, own)) + Options(Tokens(table, words))
  {
    TokensJoin(table, own, words);
    OptionsJoin(Tokens(table, own), Tokens(table, words));
  }

  lemma WaitingReads(table: map<string, bool>, waiting: string, next: seq<string>)
    requires waiting != "--" && Dashed(waiting) && waiting != "-" && TakesNext(table, waiting)
    ensures var read := Options(Tokens(table, [waiting] + next));
            read != [] && read[0] == Opt(waiting, if next == [] then None else Some(next[0]))
  {
    var words := [waiting] + next;
    if next != [] { assert words[1] == next[0]; }
  }

  lemma WaitingTakesTheBlock(table: map<string, bool>, own: seq<string>, waiting: string, options: seq<string>,
      after: seq<string>)
    requires IsBlock(options) && options != [] && (after == [] || after[0] == "--")
    requires "--" !in own && waiting != "--" && Complete(table, own)
    requires Dashed(waiting) && waiting != "-" && TakesNext(table, waiting)
    ensures Options(Tokens(table, own + ([waiting] + (options + after))))
         != Options(Tokens(table, own + ([waiting] + after))) + Options(Tokens(table, options))
  {
    var moved, kept := [waiting] + (options + after), [waiting] + after;
    var first, second := Some(options[0]), if after == [] then None else Some("--");
    assert first != second by { BlockWordsAreOptions(options); }
    WaitingReads(table, waiting, options + after);
    WaitingReads(table, waiting, after);
    hide Tokens, Options, Complete, IsBlock, TakesNext;
    OwnThen(table, own, moved);
    OwnThen(table, own, kept);
    var at := |Options(Tokens(table, own))|;
    assert Options(Tokens(table, own + moved))[at] == Opt(waiting, first);
    assert Options(Tokens(table, own + kept))[at] == Opt(waiting, second);
  }

  lemma IncompleteDoesNot(table: map<string, bool>, before: seq<string>, after: seq<string>, options: seq<string>)
    requires IsBlock(options) && options != [] && "--" !in before && (after != [] ==> after[0] == "--")
    requires !Complete(table, before)
    ensures !ReadLast(table, before + (options + after), before + after, options)
  {
    hide Tokens, IsBlock, Complete, Words, Options;
    var own, waiting := Waiting(table, before);
    assert before + (options + after) == own + ([waiting] + (options + after))
        && before + after == own + ([waiting] + after);
    assert forall word :: word in own ==> word in before;
    assert waiting in before;
    WaitingTakesTheBlock(table, own, waiting, options, after);
  }

  /** Moving keeps what every word means exactly when the words before the first `--` leave no
      option waiting for its value. */
  lemma MovedOptionsAreReadLast(table: map<string, bool>, rest: seq<string>, options: seq<string>)
    requires KnowsCommon(table) && IsBlock(options) && options != []
    ensures ReadLast(table, Placed(rest, options), rest, options) <==> Complete(table, rest[..IndexOf(rest, "--")])
  {
    var end := IndexOf(rest, "--");
    var before, after := rest[..end], rest[end..];
    assert rest == before + after && before + options + after == before + (options + after);
    assert after != [] ==> after[0] == "--";
    hide *;
    if Complete(table, before) {
      CompleteMoves(table, before, after, options);
    } else {
      IncompleteDoesNot(table, before, after, options);
    }
  }
}
