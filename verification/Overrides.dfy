/** Model overrides edited, printed and set again: packages/cli/src/admin.ts, `fieldValue`,
    `withField`, `overrideValue`, `describeOverride` and the `set` loop of `modelCommand`. */
module Overrides {
  import opened Optional
  import opened Text
  import opened Decimal

  datatype Field =
    | Context | Output | Reasoning | ToolCall | Modalities
    | PriceInput | PriceOutput | PriceCacheRead | PriceCacheWrite

  datatype Value = Amount(number: Number) | Flag(on: bool) | Names(names: seq<string>)

  datatype Price = Price(input: Option<Value>, output: Option<Value>, cacheRead: Option<Value>,
                         cacheWrite: Option<Value>)

  /** An override's values; a price is there or not as a whole. */
  datatype Values = Values(context: Option<Value>, output: Option<Value>, reasoning: Option<Value>,
                           toolCall: Option<Value>, modalities: Option<Value>, price: Option<Price>)

  const EMPTY := Values(None, None, None, None, None, None)
  const NO_PRICE := Price(None, None, None, None)

  // ---------- fieldValue and withField ----------

  predicate IsPrice(field: Field) {
    field.PriceInput? || field.PriceOutput? || field.PriceCacheRead? || field.PriceCacheWrite?
  }

  function PriceOf(price: Price, field: Field): Option<Value>
    requires IsPrice(field)
  {
    match field
    case PriceInput => price.input
    case PriceOutput => price.output
    case PriceCacheRead => price.cacheRead
    case PriceCacheWrite => price.cacheWrite
  }

  function FieldValue(field: Field, values: Values): Option<Value> {
    match field
    case Context => values.context
    case Output => values.output
    case Reasoning => values.reasoning
    case ToolCall => values.toolCall
    case Modalities => values.modalities
    case _ => if values.price.Some? then PriceOf(values.price.value, field) else None
  }

  function WithPrice(price: Price, field: Field, value: Option<Value>): Price
    requires IsPrice(field)
  {
    match field
    case PriceInput => price.(input := value)
    case PriceOutput => price.(output := value)
    case PriceCacheRead => price.(cacheRead := value)
    case PriceCacheWrite => price.(cacheWrite := value)
  }

  /** `values` with `field` set, or removed; a price left without fields is removed too. */
  function WithField(values: Values, field: Field, value: Option<Value>): Values {
    match field
    case Context => values.(context := value)
    case Output => values.(output := value)
    case Reasoning => values.(reasoning := value)
    case ToolCall => values.(toolCall := value)
    case Modalities => values.(modalities := value)
    case _ =>
      var price := WithPrice(if values.price.Some? then values.price.value else NO_PRICE, field, value);
      values.(price := if price == NO_PRICE then None else Some(price))
  }

  /** No empty price object. */
  predicate Normalized(values: Values) {
    values.price != Some(NO_PRICE)
  }

  /** Setting a field sets that field, leaves the others, and keeps the values normalized. */
  lemma SetThenGet(values: Values, field: Field, value: Option<Value>, other: Field)
    ensures FieldValue(other, WithField(values, field, value)) ==
        if other == field then value else FieldValue(other, values)
    ensures Normalized(values) || IsPrice(field) ==> Normalized(WithField(values, field, value))
  {
  }

  /** Setting a field to what it holds changes nothing but an empty price object. */
  lemma GetThenSet(values: Values, field: Field)
    ensures WithField(values, field, FieldValue(field, values)) == values <==> Normalized(values) || !IsPrice(field)
  {
  }

  lemma SetThenSet(values: Values, field: Field, first: Option<Value>, second: Option<Value>)
    ensures WithField(WithField(values, field, first), field, second) == WithField(values, field, second)
  {
  }

  lemma DistinctFieldsCommute(values: Values, a: Field, x: Option<Value>, b: Field, y: Option<Value>)
    requires a != b
    ensures WithField(WithField(values, a, x), b, y) == WithField(WithField(values, b, y), a, x)
  {
  }

  /** Normalized values are told apart by their fields. */
  lemma FieldsDecide(a: Values, b: Values)
    requires Normalized(a) && Normalized(b) && forall field :: FieldValue(field, a) == FieldValue(field, b)
    ensures a == b
  {
    assert FieldValue(Context, a) == FieldValue(Context, b) && FieldValue(Output, a) == FieldValue(Output, b)
        && FieldValue(Reasoning, a) == FieldValue(Reasoning, b) && FieldValue(ToolCall, a) == FieldValue(ToolCall, b)
        && FieldValue(Modalities, a) == FieldValue(Modalities, b);
    assert FieldValue(PriceInput, a) == FieldValue(PriceInput, b)
        && FieldValue(PriceOutput, a) == FieldValue(PriceOutput, b)
        && FieldValue(PriceCacheRead, a) == FieldValue(PriceCacheRead, b)
        && FieldValue(PriceCacheWrite, a) == FieldValue(PriceCacheWrite, b);
  }

  // ---------- overrideValue ----------

  const FIELDS: seq<Field> :=
    [Context, Output, Reasoning, ToolCall, Modalities, PriceInput, PriceOutput, PriceCacheRead, PriceCacheWrite]

  function KeyOf(field: Field): string {
    match field
    case Context => "context"
    case Output => "output"
    case Reasoning => "reasoning"
    case ToolCall => "toolcall"
    case Modalities => "modalities"
    case PriceInput => "price.input"
    case PriceOutput => "price.output"
    case PriceCacheRead => "price.cacheRead"
    case PriceCacheWrite => "price.cacheWrite"
  }

  predicate IsModality(name: string) {
    name in ["text", "image", "pdf", "audio", "video"]
  }

  predicate NoRepeats(names: seq<string>) {
    forall i, j :: 0 <= i < j < |names| ==> names[i] != names[j]
  }

  function Trimmed(names: seq<string>): seq<string> {
    seq(|names|, k requires 0 <= k < |names| => Trim(names[k]))
  }

  /** A positive safe integer of up to sixteen digits that starts with none of them zero. */
  function ReadCount(text: string): Option<Value> {
    if Natural(text) && text[0] != '0' && |text| <= 16 && ReadPlain(text, 0).Some?
        && IsSafeInteger(ReadPlain(text, 0).value)
    then Some(Amount(ReadPlain(text, 0).value)) else None
  }

  function ReadFlag(text: string): Option<Value> {
    if Lower(text) in ["yes", "true"] then Some(Flag(true))
    else if Lower(text) in ["no", "false"] then Some(Flag(false))
    else None
  }

  function ReadNames(text: string): Option<Value> {
    var names := Trimmed(Split(text, ','));
    if (forall name :: name in names ==> IsModality(name)) && NoRepeats(names) then Some(Names(names)) else None
  }

  /** Digits, perhaps with a fraction; no exponent. */
  function ReadPrice(text: string): Option<Value> {
    var number := ReadPlain(text, 0);
    if number.Some? then Some(Amount(number.value)) else None
  }

  datatype Reading = Removed | Given(value: Value) | Refused

  function OverrideValue(field: Field, text: string): Reading {
    if text == "" then Removed
    else
      var value := match field
        case Context => ReadCount(text)
        case Output => ReadCount(text)
        case Reasoning => ReadFlag(text)
        case ToolCall => ReadFlag(text)
        case Modalities => ReadNames(text)
        case _ => ReadPrice(text);
      if value.Some? then Given(value.value) else Refused
  }

  // ---------- describeOverride and the set loop ----------

  function Display(value: Value): string
    requires value.Amount? ==> Canonical(value.number)
  {
    match value
    case Amount(number) => Print(number)
    case Flag(on) => if on then "yes" else "no"
    case Names(names) => Join(names, ',')
  }

  /** Values as the daemon stores them. */
  predicate ValidValue(field: Field, value: Value) {
    match field
    case Context => value.Amount? && value.number.Positive? && IsSafeInteger(value.number)
    case Output => value.Amount? && value.number.Positive? && IsSafeInteger(value.number)
    case Reasoning => value.Flag?
    case ToolCall => value.Flag?
    case Modalities => value.Names? && (forall name :: name in value.names ==> IsModality(name))
        && NoRepeats(value.names)
    case _ => value.Amount? && Canonical(value.number)
  }

  predicate ValidValues(values: Values) {
    forall field :: FieldValue(field, values).Some? ==> ValidValue(field, FieldValue(field, values).value)
  }

  function Word(field: Field, value: Value): string
    requires ValidValue(field, value)
  {
    KeyOf(field) + "=" + Display(value)
  }

  function Described(values: Values, fields: seq<Field>): seq<string>
    requires ValidValues(values)
  {
    if fields == [] then []
    else
      var rest, field := Described(values, fields[..|fields| - 1]), fields[|fields| - 1];
      if FieldValue(field, values).Some? then rest + [Word(field, FieldValue(field, values).value)] else rest
  }

  function Describe(values: Values): string
    requires ValidValues(values)
  {
    Join(Described(values, FIELDS), ' ')
  }

  function FieldNamed(key: string): Option<Field> {
    if key == "context" then Some(Context)
    else if key == "output" then Some(Output)
    else if key == "reasoning" then Some(Reasoning)
    else if key == "toolcall" then Some(ToolCall)
    else if key == "modalities" then Some(Modalities)
    else if key == "price.input" then Some(PriceInput)
    else if key == "price.output" then Some(PriceOutput)
    else if key == "price.cacheRead" then Some(PriceCacheRead)
    else if key == "price.cacheWrite" then Some(PriceCacheWrite)
    else None
  }

  /** One `KEY=VALUE`, or None when it is refused. */
  function WithPair(values: Values, pair: string): Option<Values> {
    var equals := IndexOf(pair, '=');
    var field := FieldNamed(pair[..equals]);
    if equals == 0 || equals == |pair| || field.None? then None
    else
      var reading := OverrideValue(field.value, pair[equals + 1..]);
      if reading.Refused? then None
      else Some(WithField(values, field.value, if reading.Given? then Some(reading.value) else None))
  }

  function WithPairs(current: Values, pairs: seq<string>): Option<Values> {
    if pairs == [] then Some(current)
    else
      var before := WithPairs(current, pairs[..|pairs| - 1]);
      if before.None? then None else WithPair(before.value, pairs[|pairs| - 1])
  }

  lemma {:induction false} StaysRefused(current: Values, pairs: seq<string>, n: nat)
    requires n <= |pairs| && WithPairs(current, pairs[..n]).None?
    ensures WithPairs(current, pairs).None?
    decreases |pairs|
  {
    hide WithPair;
    if n == |pairs| {
      assert pairs[..n] == pairs;
    } else {
      var front := pairs[..|pairs| - 1];
      assert front[..n] == pairs[..n];
      StaysRefused(current, front, n);
    }
  }

  method SetPairs(current: Values, pairs: seq<string>) returns (next: Option<Values>)
    ensures next == WithPairs(current, pairs)
  {
    hide WithPair;
    var values := current;
    for i := 0 to |pairs|
      invariant WithPairs(current, pairs[..i]) == Some(values)
    {
      assert pairs[..i + 1][..i] == pairs[..i];
      var edited := WithPair(values, pairs[i]);
      if edited.None? {
        StaysRefused(current, pairs, i + 1);
        return None;
      }
      values := edited.value;
    }
    assert pairs[..|pairs|] == pairs;
    return Some(values);
  }

  // ---------- What is printed, set again ----------

  /** The value's word can be given to `set`: no exponent in a price, no empty list. */
  predicate Readable(field: Field, value: Value)
    requires ValidValue(field, value)
  {
    if IsPrice(field) then PrintsPlainly(value.number)
    else field.Modalities? ==> value.names != []
  }

  /** What `set` makes of a value's word. */
  function ReadAgain(field: Field, value: Value): Reading
    requires ValidValue(field, value)
  {
    if Readable(field, value) then Given(value) else if field.Modalities? then Removed else Refused
  }

  lemma KeyIsPlain(field: Field)
    ensures '=' !in KeyOf(field) && ' ' !in KeyOf(field) && KeyOf(field) != ""
        && FieldNamed(KeyOf(field)) == Some(field)
  {
  }

  lemma KeyReads(field: Field, text: string)
    ensures var pair := KeyOf(field) + "=" + text;
            && IndexOf(pair, '=') == |KeyOf(field)| > 0
            && pair[..|KeyOf(field)|] == KeyOf(field) && pair[|KeyOf(field)| + 1..] == text
    ensures FieldNamed(KeyOf(field)) == Some(field) && ' ' !in KeyOf(field)
  {
    var key := KeyOf(field);
    assert '=' !in key && ' ' !in key && key != "" && FieldNamed(key) == Some(field) by { KeyIsPlain(field); }
    hide KeyOf, FieldNamed, IndexOf;
    IndexAfter(key, '=', text);
    var pair := key + "=" + text;
    assert pair[..|key|] == key && pair[|key| + 1..] == text;
  }

  lemma CountReads(x: Number)
    requires x.Positive? && IsSafeInteger(x)
    ensures ReadCount(Print(x)) == Some(Amount(x)) && Print(x) != "" && ' ' !in Print(x)
  {
    var zeros := x.point - |x.digits|;
    ZerosAreDigits(zeros, x.digits);
    assert Print(x) == x.digits + Zeros(zeros);
    ReadPrint(x);
    PrintCharacters(x);
    ReadWithoutExponent(Print(x));
    hide ReadPlain, Read, IsSafeInteger;
    assert (x.digits + Zeros(zeros))[0] == x.digits[0];
  }

  /** The plain grammar takes only digits and a dot. */
  lemma PlainOrNothing(text: string)
    ensures ReadPlain(text, 0).Some? ==> 'e' !in text
  {
    var dot := IndexOf(text, '.');
    if ReadPlain(text, 0).Some? && dot < |text| {
      assert text == text[..dot] + ['.'] + text[dot + 1..];
    } else {
      assert text[..dot] == text || dot < |text|;
    }
  }

  lemma PriceReads(x: Number)
    requires Canonical(x)
    ensures ReadPrice(Print(x)) == (if PrintsPlainly(x) then Some(Amount(x)) else None)
    ensures Print(x) != "" && ' ' !in Print(x)
  {
    hide Print, Read, ReadPlain, Plain, Canonical;
    assert !Printed(' ');
    ReadPrint(x);
    PrintCharacters(x);
    if PrintsPlainly(x) {
      ReadWithoutExponent(Print(x));
    } else {
      PlainOrNothing(Print(x));
    }
  }

  lemma FlagReads(on: bool)
    ensures var text := if on then "yes" else "no"; ReadFlag(text) == Some(Flag(on)) && ' ' !in text
  {
    assert Lower("yes") == "yes" && Lower("no") == "no";
  }

  lemma ModalityIsClean(name: string)
    requires IsModality(name)
    ensures name != "" && Trim(name) == name && ',' !in name && ' ' !in name
  {
    assert !IsSpace(name[0]) && !IsSpace(name[|name| - 1]);
    hide Trim, IsSpace;
    TrimNothing(name);
  }

  lemma NamesRead(names: seq<string>)
    requires names != [] && (forall name :: name in names ==> IsModality(name)) && NoRepeats(names)
    ensures ReadNames(Join(names, ',')) == Some(Names(names)) && Join(names, ',') != "" && ' ' !in Join(names, ',')
  {
    forall name | name in names ensures name != "" && Trim(name) == name && ',' !in name && ' ' !in name {
      ModalityIsClean(name);
    }
    hide IsModality, Trim, Split;
    SplitJoin(names, ',');
    JoinCharacters(names, ',');
    assert names[0] in names;
    assert Trimmed(names) == names;
  }

  lemma JoinNothing()
    ensures Join([], ',') == ""
  {
  }

  lemma ValueReads(field: Field, value: Value)
    requires ValidValue(field, value)
    ensures value.Amount? ==> Canonical(value.number)
    ensures OverrideValue(field, Display(value)) == ReadAgain(field, value)
    ensures ' ' !in Display(value)
  {
    assert value.Amount? ==> Canonical(value.number);
    hide ReadCount, ReadFlag, ReadNames, ReadPrice, Print, Join, PrintsPlainly, IsSafeInteger, Canonical, IsModality,
        NoRepeats;
    match field
    case Context => CountReads(value.number);
    case Output => CountReads(value.number);
    case Reasoning => FlagReads(value.on);
    case ToolCall => FlagReads(value.on);
    case Modalities =>
      if value.names != [] { NamesRead(value.names); } else { JoinNothing(); }
    case _ => PriceReads(value.number);
  }

  lemma WordReads(current: Values, field: Field, value: Value)
    requires ValidValue(field, value)
    ensures var read := ReadAgain(field, value);
            WithPair(current, Word(field, value)) ==
              (if read.Refused? then None
                  else Some(WithField(current, field, if read.Given? then Some(read.value) else None)))
    ensures Word(field, value) != "" && ' ' !in Word(field, value)
  {
    hide OverrideValue, Display, KeyOf, FieldNamed, WithField, ValidValue, ReadAgain, IndexOf;
    ValueReads(field, value);
    KeyReads(field, Display(value));
  }

  /** What a field of `values` is once its word, if it has one, has been set. */
  function FieldAgain(field: Field, values: Values): Option<Value>
    requires ValidValues(values)
  {
    var value := FieldValue(field, values);
    if value.Some? && Readable(field, value.value) then value else None
  }

  /** A printed price that `set` refuses. */
  predicate RefusedAmong(values: Values, fields: seq<Field>)
    requires ValidValues(values)
  {
    exists field :: field in fields && IsPrice(field) && FieldValue(field, values).Some?
      && !Readable(field, FieldValue(field, values).value)
  }

  lemma OneWordMore(values: Values, words: seq<string>, field: Field, value: Value)
    requires ValidValue(field, value)
    ensures Word(field, value) != "" && ' ' !in Word(field, value)
    ensures var before, after := WithPairs(EMPTY, words), WithPairs(EMPTY, words + [Word(field, value)]);
            && (before.None? ==> after.None?)
            && (before.Some? && !Readable(field, value) && IsPrice(field) ==> after.None?)
            && (before.Some? && (Readable(field, value) || !IsPrice(field)) ==>
                  && after.Some? && (Normalized(before.value) ==> Normalized(after.value))
                  && forall other :: FieldValue(other, after.value) ==
                       if other == field then (if Readable(field, value) then Some(value) else None)
                       else FieldValue(other, before.value))
  {
    var all := words + [Word(field, value)];
    assert all[..|all| - 1] == words;
    var before := WithPairs(EMPTY, words);
    hide Word, WithPair, FieldValue, WithField, Normalized;
    if before.Some? {
      WordReads(before.value, field, value);
      var again := if Readable(field, value) then Some(value) else None;
      forall other
        ensures FieldValue(other, WithField(before.value, field, again)) ==
          if other == field then again else FieldValue(other, before.value)
      {
        SetThenGet(before.value, field, again, other);
      }
      SetThenGet(before.value, field, again, field);
    } else {
      WordReads(EMPTY, field, value);
    }
  }

  lemma {:induction false} DescribedReads(values: Values, fields: seq<Field>)
    requires ValidValues(values)
    ensures forall word :: word in Described(values, fields) ==> word != "" && ' ' !in word
    ensures var r := WithPairs(EMPTY, Described(values, fields));
            if RefusedAmong(values, fields) then r == None
            else
              && r.Some? && Normalized(r.value)
              && forall field :: FieldValue(field, r.value) ==
                  if field in fields then FieldAgain(field, values) else None
  {
    if fields != [] {
      var front, field := fields[..|fields| - 1], fields[|fields| - 1];
      assert fields == front + [field];
      DescribedReads(values, front);
      hide Word, WithPair, Readable, Normalized, ValidValue;
      if FieldValue(field, values).Some? {
        var value := FieldValue(field, values).value;
        OneWordMore(values, Described(values, front), field, value);
      }
    }
  }

  lemma AllFields(field: Field)
    ensures field in FIELDS
  {
    assert FIELDS[0] == Context && FIELDS[1] == Output && FIELDS[2] == Reasoning && FIELDS[3] == ToolCall
        && FIELDS[4] == Modalities;
    assert FIELDS[5] == PriceInput && FIELDS[6] == PriceOutput && FIELDS[7] == PriceCacheRead
        && FIELDS[8] == PriceCacheWrite;
  }

  /** Setting the printed words on an empty override rebuilds it exactly when it has no empty price
      object, every price prints without an exponent, and a list of modalities is not empty. */
  lemma DescribedRebuilds(values: Values)
    requires ValidValues(values)
    ensures WithPairs(EMPTY, LineWords(Describe(values))) == Some(values) <==>
              Normalized(values) &&
              forall field :: FieldValue(field, values).Some? ==> Readable(field, FieldValue(field, values).value)
  {
    hide FIELDS, Described, LineWords, Join, WithPairs, FieldValue, Readable, Normalized, ValidValue;
    DescribedReads(values, FIELDS);
    LineReads(Described(values, FIELDS));
    forall field ensures field in FIELDS { AllFields(field); }
    var r := WithPairs(EMPTY, Described(values, FIELDS));
    if r.Some? && Normalized(values) && forall field :: FieldValue(field, values) == FieldValue(field, r.value) {
      FieldsDecide(values, r.value);
    }
  }

  // ---------- What a field, a word and a value are ----------

  /** Each field is the record's own, a price's below `price`. */
  lemma FieldsOfTheRecord(values: Values, price: Price)
    ensures FieldValue(Context, values) == values.context && FieldValue(Output, values) == values.output
    ensures FieldValue(Reasoning, values) == values.reasoning && FieldValue(ToolCall, values) == values.toolCall
    ensures FieldValue(Modalities, values) == values.modalities
    ensures var priced := values.(price := Some(price));
            && FieldValue(PriceInput, priced) == price.input && FieldValue(PriceOutput, priced) == price.output
            && FieldValue(PriceCacheRead, priced) == price.cacheRead
            && FieldValue(PriceCacheWrite, priced) == price.cacheWrite
    ensures forall field :: IsPrice(field) ==> FieldValue(field, values.(price := None)) == None
  {
  }

  /** The words are those of the fields that are set, in the order of the fields. */
  lemma {:induction false} DescribedJoins(values: Values, a: seq<Field>, b: seq<Field>)
    requires ValidValues(values)
    ensures Described(values, a + b) == Described(values, a) + Described(values, b)
  {
    hide Word, FieldValue, ValidValue;
    var ab := a + b;
    if b == [] {
      assert ab == a;
    } else {
      assert ab[..|ab| - 1] == a + b[..|b| - 1] && ab[|ab| - 1] == b[|b| - 1];
      DescribedJoins(values, a, b[..|b| - 1]);
    }
  }

  lemma DescribedOne(values: Values, field: Field)
    requires ValidValues(values)
    ensures Described(values, [field]) ==
              if FieldValue(field, values).Some? then [Word(field, FieldValue(field, values).value)] else []
  {
    hide Word, FieldValue, ValidValue;
    assert [field][..0] == [];
  }

  lemma WordsOfFlags()
    ensures Word(Reasoning, Flag(true)) == "reasoning=yes" && Word(ToolCall, Flag(false)) == "toolcall=no"
  {
  }

  lemma WordOfNames()
    ensures Word(Modalities, Names(["text", "pdf"])) == "modalities=text,pdf"
  {
    assert ["text", "pdf"][1..] == ["pdf"];
    assert Join(["text", "pdf"], ',') == "text,pdf";
  }

  lemma OneDigit(digit: char)
    requires '1' <= digit <= '9'
    ensures IsSafeInteger(Positive([digit], 1)) && Print(Positive([digit], 1)) == [digit]
  {
    assert [digit] + Zeros(0) == [digit] && NatValue([digit][..0]) == 0;
  }

  lemma WordsOfCounts()
    ensures var value := Amount(Positive("2", 1)); ValidValue(Context, value) && Word(Context, value) == "context=2"
    ensures var value := Amount(Positive("8", 1)); ValidValue(Output, value) && Word(Output, value) == "output=8"
  {
    hide IsSafeInteger, Print;
    OneDigit('2');
    OneDigit('8');
  }

  lemma WordsOfPrices()
    ensures Word(PriceInput, Amount(Positive("27", 0))) == "price.input=0.27"
    ensures Word(PriceOutput, Amount(Positive("15", 1))) == "price.output=1.5"
    ensures Word(PriceCacheRead, Amount(Zero)) == "price.cacheRead=0"
    ensures Word(PriceCacheWrite, Amount(Zero)) == "price.cacheWrite=0"
  {
    assert Zeros(0) == "" && "15"[..1] == "1" && "15"[1..] == "5";
    assert Print(Positive("27", 0)) == "0.27" && Print(Positive("15", 1)) == "1.5";
  }

  /** A count is digits that start with none of them zero, up to 2^53 - 1. */
  lemma CountIs(text: string)
    ensures ReadCount(text).Some? <==> Natural(text) && text[0] != '0' && NatValue(text) <= 9007199254740991
    ensures ReadCount(text).Some? ==>
        ReadPlain(text, 0).Some? && ReadCount(text) == Some(Amount(ReadPlain(text, 0).value))
  {
    hide ReadPlain, IsSafeInteger, Power;
    if Natural(text) {
      SafeIs(text);
      if text[0] != '0' && |text| > 16 {
        WorthSomething(text);
        PowerGrows(16, |text| - 1);
        PowerOfSixteen();
      }
    }
  }

  /** A flag is `yes`, `true`, `no` or `false`, in whichever case. */
  lemma FlagsAre(text: string)
    ensures ReadFlag(text) == Some(Flag(true)) <==> Lower(text) == "yes" || Lower(text) == "true"
    ensures ReadFlag(text) == Some(Flag(false)) <==> Lower(text) == "no" || Lower(text) == "false"
    ensures ReadFlag("TRUE") == Some(Flag(true)) && ReadFlag("No") == Some(Flag(false))
  {
    assert Lower("TRUE") == "true" && Lower("No") == "no";
    hide Lower;
    assert forall t: string :: t in ["yes", "true"] <==> t == "yes" || t == "true";
    assert forall t: string :: t in ["no", "false"] <==> t == "no" || t == "false";
  }

  /** Modalities are names between commas, with white space around them or not, each once. */
  lemma NamesAre(names: seq<string>)
    requires names != [] && forall name :: name in names ==> ',' !in name
    ensures var trimmed := Trimmed(names);
            ReadNames(Join(names, ',')) ==
              if && (forall name :: name in trimmed ==> name in ["text", "image", "pdf", "audio", "video"])
                 && (forall i, j :: 0 <= i < j < |trimmed| ==> trimmed[i] != trimmed[j])
              then Some(Names(trimmed)) else None
  {
    hide Split, Join, Trim;
    SplitJoin(names, ',');
  }

  lemma KeysDecide(key: string, field: Field)
    ensures FieldNamed(key) == Some(field) <==> key == KeyOf(field)
  {
  }

  lemma PairParts(key: string, text: string)
    requires '=' !in key
    ensures var pair := key + "=" + text;
            IndexOf(pair, '=') == |key| && pair[..|key|] == key && pair[|key| + 1..] == text
                && IndexOf(key, '=') == |key|
  {
    IndexAfter(key, '=', text);
    NotFound(key, '=');
  }

  /** A pair is refused without a `=`, without a key, and with a key that no field has. */
  lemma PairRefused(values: Values, key: string, text: string)
    requires '=' !in key
    ensures WithPair(values, key) == None && WithPair(values, "=" + text) == None
    ensures FieldNamed(key).None? ==> WithPair(values, key + "=" + text) == None
  {
    hide FieldNamed, WithField, OverrideValue, IndexOf;
    PairParts(key, text);
    PairParts("", text);
    assert "" + "=" + text == "=" + text;
  }

  /** Otherwise its value is set, an empty one removes the field, and one that the field does not take is
      refused. */
  lemma PairIs(values: Values, field: Field, text: string)
    ensures WithPair(values, KeyOf(field) + "=" + text) ==
              if text == "" then Some(WithField(values, field, None))
              else
                match OverrideValue(field, text)
                case Given(value) => Some(WithField(values, field, Some(value)))
                case Removed => Some(WithField(values, field, None))
                case Refused => None
    ensures text != "" ==> !OverrideValue(field, text).Removed?
  {
    KeyIsPlain(field);
    hide KeyOf, FieldNamed, WithField, ReadCount, ReadFlag, ReadNames, ReadPrice, IndexOf;
    PairParts(KeyOf(field), text);
  }
}
