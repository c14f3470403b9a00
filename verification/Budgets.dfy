/** Key budgets and quotas printed and read back: packages/cli/src/admin.ts, `budgetOption`,
    `quotaFlags` and `quotaOptions`. */
module Budgets {
  import opened Optional
  import opened Text
  import opened Decimal

  datatype Period = Day | Week | Month

  datatype Budget = Budget(period: Period, tokens: Option<Number>, costUsd: Option<Number>, cacheReads: Option<bool>)

  datatype BudgetRead = Accepted(budget: Budget) | NoSuchPeriod | NoSuchItem(item: string) | NeedsACap

  function PeriodName(period: Period): string {
    match period
    case Day => "day"
    case Week => "week"
    case Month => "month"
  }

  function PeriodNamed(name: string): Option<Period> {
    if name == "day" then Some(Day) else if name == "week" then Some(Week) else if name == "month" then Some(Month)
        else None
  }

  // ---------- budgetOption ----------

  /** `item.split("=", 2)`: what follows a second `=` is dropped. */
  function ItemName(item: string): string { item[..IndexOf(item, '=')] }

  function ItemValue(item: string): Option<string> {
    var at := IndexOf(item, '=');
    if at == |item| then None
    else
      var rest := item[at + 1..];
      Some(rest[..IndexOf(rest, '=')])
  }

  function WithItem(budget: Budget, item: string): BudgetRead {
    var name, value := ItemName(item), ItemValue(item);
    var number := if value.Some? then Decimal.Read(value.value) else None;
    if name == "tokens" && number.Some? && IsSafeInteger(number.value) then Accepted(budget.(tokens := number))
    else if name == "cost" && number.Some? && IsFinite(number.value) then Accepted(budget.(costUsd := number))
    else if name == "cache-reads" && value.None? then Accepted(budget.(cacheReads := Some(true)))
    else NoSuchItem(item)
  }

  function WithItems(budget: Budget, items: seq<string>): (r: BudgetRead)
    ensures r.Accepted? || r.NoSuchItem?
  {
    if items == [] then Accepted(budget)
    else
      var before, item := WithItems(budget, items[..|items| - 1]), Trim(items[|items| - 1]);
      if !before.Accepted? || item == "" then before else WithItem(before.budget, item)
  }

  function Capped(r: BudgetRead): BudgetRead {
    if r.Accepted? && r.budget.tokens.None? && r.budget.costUsd.None? then NeedsACap else r
  }

  /** The text's period and, after its first colon, its items. */
  function BudgetOption(text: string): BudgetRead {
    var colon := IndexOf(text, ':');
    var period := PeriodNamed(text[..colon]);
    var rest := if colon < |text| then text[colon + 1..] else "";
    if period.None? then NoSuchPeriod
    else Capped(WithItems(Budget(period.value, None, None, None), Split(rest, ',')))
  }

  lemma {:induction false} StaysRefused(start: Budget, items: seq<string>, n: nat)
    requires n <= |items| && !WithItems(start, items[..n]).Accepted?
    ensures WithItems(start, items) == WithItems(start, items[..n])
    decreases |items|
  {
    if n == |items| {
      assert items[..n] == items;
    } else {
      var front := items[..|items| - 1];
      assert front[..n] == items[..n];
      StaysRefused(start, front, n);
    }
  }

  method ReadBudget(text: string) returns (r: BudgetRead)
    ensures r == BudgetOption(text)
  {
    hide Split, WithItem;
    var colon := IndexOf(text, ':');
    var period := PeriodNamed(text[..colon]);
    if period.None? {
      return NoSuchPeriod;
    }
    var items := Split(if colon < |text| then text[colon + 1..] else "", ',');
    var start := Budget(period.value, None, None, None);
    var budget := start;
    for i := 0 to |items|
      invariant WithItems(start, items[..i]) == Accepted(budget)
    {
      assert items[..i + 1][..i] == items[..i];
      var item := Trim(items[i]);
      if item != "" {
        var read := WithItem(budget, item);
        if !read.Accepted? {
          StaysRefused(start, items, i + 1);
          return read;
        }
        budget := read.budget;
      }
    }
    assert items[..|items|] == items;
    return if budget.tokens.None? && budget.costUsd.None? then NeedsACap else Accepted(budget);
  }

  // ---------- quotaFlags ----------

  /** A budget as the daemon stores it. */
  predicate Valid(budget: Budget) {
    && (budget.tokens.Some? ==> IsSafeInteger(budget.tokens.value))
    && (budget.costUsd.Some? ==> IsFinite(budget.costUsd.value))
    && (budget.tokens.Some? || budget.costUsd.Some?)
  }

  /** A false `cacheReads` is the same as none. */
  function Plainly(budget: Budget): Budget {
    if budget.cacheReads == Some(true) then budget else budget.(cacheReads := None)
  }

  function TokensItems(budget: Budget): seq<string>
    requires Valid(budget)
  {
    if budget.tokens.Some? then ["tokens=" + Print(budget.tokens.value)] else []
  }

  function CostItems(budget: Budget): seq<string>
    requires Valid(budget)
  {
    if budget.costUsd.Some? then ["cost=" + Print(budget.costUsd.value)] else []
  }

  function CacheItems(budget: Budget): seq<string> {
    if budget.cacheReads == Some(true) then ["cache-reads"] else []
  }

  function Items(budget: Budget): seq<string>
    requires Valid(budget)
  {
    TokensItems(budget) + CostItems(budget) + CacheItems(budget)
  }

  function BudgetText(budget: Budget): string
    requires Valid(budget)
  {
    PeriodName(budget.period) + ":" + Join(Items(budget), ',')
  }

  // ---------- A printed budget reads back ----------

  /** An item's text: no separators, and nothing to trim. */
  predicate Clean(item: string) {
    item != "" && Trim(item) == item && ',' !in item && ' ' !in item
  }

  lemma ItemParts(name: string, text: string)
    requires '=' !in name && '=' !in text
    ensures ItemName(name + "=" + text) == name && ItemValue(name + "=" + text) == Some(text)
  {
    var item := name + "=" + text;
    IndexAfter(name, '=', text);
    NotFound(text, '=');
    hide IndexOf;
    assert item[..|name|] == name && item[|name| + 1..] == text && text[..|text|] == text;
  }

  lemma ItemIsClean(name: string, text: string)
    requires name in ["tokens", "cost"] && text != "" && forall c :: c in text ==> Printed(c)
    ensures Clean(name + "=" + text) && '=' !in text && '=' !in name
  {
    var item := name + "=" + text;
    assert item[|item| - 1] == text[|text| - 1] && text[|text| - 1] in text;
    assert item[0] == name[0];
    TrimNothing(item);
  }

  lemma NumberItem(name: string, x: Number)
    requires Canonical(x) && name in ["tokens", "cost"]
    ensures var item := name + "=" + Print(x);
            Clean(item) && ItemName(item) == name && ItemValue(item) == Some(Print(x))
                && Decimal.Read(Print(x)) == Some(x)
  {
    hide Print, Decimal.Read, ItemName, ItemValue, Clean, Printed;
    PrintCharacters(x);
    ReadPrint(x);
    ItemIsClean(name, Print(x));
    ItemParts(name, Print(x));
  }

  lemma TokensItem(budget: Budget, x: Number)
    requires IsSafeInteger(x)
    ensures Canonical(x)
    ensures Clean("tokens=" + Print(x))
        && WithItem(budget, "tokens=" + Print(x)) == Accepted(budget.(tokens := Some(x)))
  {
    hide Print, Decimal.Read, ItemName, ItemValue, Clean;
    NumberItem("tokens", x);
    assert "tokens" + "=" + Print(x) == "tokens=" + Print(x);
  }

  lemma CostItem(budget: Budget, x: Number)
    requires IsFinite(x)
    ensures Canonical(x)
    ensures Clean("cost=" + Print(x)) && WithItem(budget, "cost=" + Print(x)) == Accepted(budget.(costUsd := Some(x)))
  {
    hide Print, Decimal.Read, ItemName, ItemValue, Clean, IsSafeInteger;
    NumberItem("cost", x);
    assert "cost" + "=" + Print(x) == "cost=" + Print(x);
  }

  lemma NoValue(item: string)
    requires '=' !in item
    ensures ItemName(item) == item && ItemValue(item) == None
  {
    NotFound(item, '=');
    hide IndexOf;
    assert item[..|item|] == item;
  }

  lemma LettersAreNotSpace()
    ensures !IsSpace('c') && !IsSpace('s')
  {
  }

  lemma CacheReadsIsClean()
    ensures Clean("cache-reads")
  {
    hide IsSpace;
    assert !IsSpace('c') && !IsSpace('s') by { LettersAreNotSpace(); }
    hide Trim;
    TrimNothing("cache-reads");
  }

  lemma CacheReadsItem(budget: Budget)
    ensures Clean("cache-reads") && WithItem(budget, "cache-reads") == Accepted(budget.(cacheReads := Some(true)))
  {
    hide IndexOf, ItemName, ItemValue, Clean, Trim, Decimal.Read, IsSafeInteger, IsFinite;
    var item := "cache-reads";
    NoValue(item);
    CacheReadsIsClean();
    assert item != "tokens" && item != "cost";
  }

  lemma OneItemMore(start: Budget, items: seq<string>, item: string, budget: Budget)
    requires WithItems(start, items) == Accepted(budget) && Clean(item)
    ensures WithItems(start, items + [item]) == WithItem(budget, item)
  {
    hide WithItem;
    var all := items + [item];
    assert all[..|all| - 1] == items;
  }

  lemma TokensItemsRead(start: Budget, items: seq<string>, budget: Budget, b: Budget)
    requires WithItems(start, items) == Accepted(budget) && Valid(b) && budget.tokens.None?
    ensures WithItems(start, items + TokensItems(b)) == Accepted(budget.(tokens := b.tokens))
    ensures forall item :: item in TokensItems(b) ==> Clean(item)
  {
    hide WithItems, WithItem, Print, IsSafeInteger, Clean;
    if b.tokens.Some? {
      TokensItem(budget, b.tokens.value);
      OneItemMore(start, items, "tokens=" + Print(b.tokens.value), budget);
    } else {
      assert items + TokensItems(b) == items;
    }
  }

  lemma CostItemsRead(start: Budget, items: seq<string>, budget: Budget, b: Budget)
    requires WithItems(start, items) == Accepted(budget) && Valid(b) && budget.costUsd.None?
    ensures WithItems(start, items + CostItems(b)) == Accepted(budget.(costUsd := b.costUsd))
    ensures forall item :: item in CostItems(b) ==> Clean(item)
  {
    hide WithItems, WithItem, Print, IsFinite, Clean;
    if b.costUsd.Some? {
      CostItem(budget, b.costUsd.value);
      OneItemMore(start, items, "cost=" + Print(b.costUsd.value), budget);
    } else {
      assert items + CostItems(b) == items;
    }
  }

  lemma CacheItemsRead(start: Budget, items: seq<string>, budget: Budget, b: Budget)
    requires WithItems(start, items) == Accepted(budget)
    ensures WithItems(start, items + CacheItems(b)) ==
              Accepted(if b.cacheReads == Some(true) then budget.(cacheReads := Some(true)) else budget)
    ensures forall item :: item in CacheItems(b) ==> Clean(item)
  {
    hide WithItems, WithItem, Clean;
    if b.cacheReads == Some(true) {
      CacheReadsItem(budget);
      OneItemMore(start, items, "cache-reads", budget);
    } else {
      assert items + CacheItems(b) == items;
    }
  }

  lemma ItemsRead(b: Budget)
    requires Valid(b)
    ensures WithItems(Budget(b.period, None, None, None), Items(b)) == Accepted(Plainly(b))
    ensures Items(b) != [] && forall item :: item in Items(b) ==> Clean(item)
  {
    var start := Budget(b.period, None, None, None);
    var tokens, cost := TokensItems(b), CostItems(b);
    assert tokens + cost != [];
    assert WithItems(start, []) == Accepted(start);
    hide WithItems, TokensItems, CostItems, CacheItems, Valid, Clean;
    TokensItemsRead(start, [], start, b);
    assert [] + tokens == tokens;
    CostItemsRead(start, tokens, start.(tokens := b.tokens), b);
    CacheItemsRead(start, tokens + cost, start.(tokens := b.tokens, costUsd := b.costUsd), b);
  }

  lemma CleanItemsJoin(items: seq<string>)
    requires items != [] && forall item :: item in items ==> Clean(item)
    ensures Split(Join(items, ','), ',') == items && ' ' !in Join(items, ',')
  {
    hide Trim, Split, Join;
    SplitJoin(items, ',');
    JoinCharacters(items, ',');
  }

  lemma PeriodReads(period: Period, rest: string)
    ensures var text := PeriodName(period) + ":" + rest; var colon := IndexOf(text, ':');
            && colon < |text| && text[colon + 1..] == rest && PeriodNamed(text[..colon]) == Some(period)
    ensures ' ' !in PeriodName(period)
  {
    var name, text := PeriodName(period), PeriodName(period) + ":" + rest;
    IndexAfter(name, ':', rest);
    hide IndexOf;
    assert text[..|name|] == name && text[|name| + 1..] == rest;
  }

  lemma ValidIsCapped(b: Budget)
    requires Valid(b)
    ensures Capped(Accepted(Plainly(b))) == Accepted(Plainly(b))
  {
  }

  lemma BudgetReads(b: Budget)
    requires Valid(b)
    ensures BudgetOption(BudgetText(b)) == Accepted(Plainly(b))
    ensures ' ' !in BudgetText(b)
  {
    hide WithItems, Items, Join, Split, PeriodName, PeriodNamed, IndexOf, Valid, Clean, Plainly;
    ItemsRead(b);
    CleanItemsJoin(Items(b));
    PeriodReads(b.period, Join(Items(b), ','));
    ValidIsCapped(b);
  }

  lemma ItemKeepsValid(budget: Budget, item: string)
    requires budget.tokens.Some? ==> IsSafeInteger(budget.tokens.value)
    requires budget.costUsd.Some? ==> IsFinite(budget.costUsd.value)
    requires budget.cacheReads != Some(false)
    ensures var r := WithItem(budget, item);
            r.Accepted? ==>
              && (r.budget.tokens.Some? ==> IsSafeInteger(r.budget.tokens.value))
              && (r.budget.costUsd.Some? ==> IsFinite(r.budget.costUsd.value))
              && r.budget.cacheReads != Some(false)
  {
  }

  lemma {:induction false} ItemsKeepValid(period: Period, items: seq<string>)
    ensures var r := WithItems(Budget(period, None, None, None), items);
            r.Accepted? ==>
              && (r.budget.tokens.Some? ==> IsSafeInteger(r.budget.tokens.value))
              && (r.budget.costUsd.Some? ==> IsFinite(r.budget.costUsd.value))
              && r.budget.cacheReads != Some(false)
  {
    hide WithItem, IsSafeInteger, IsFinite;
    if items != [] {
      ItemsKeepValid(period, items[..|items| - 1]);
      var before := WithItems(Budget(period, None, None, None), items[..|items| - 1]);
      if before.Accepted? { ItemKeepsValid(before.budget, Trim(items[|items| - 1])); }
    }
  }

  lemma AcceptedIsValid(text: string)
    requires BudgetOption(text).Accepted?
    ensures Valid(BudgetOption(text).budget) && Plainly(BudgetOption(text).budget) == BudgetOption(text).budget
  {
    hide WithItems, Split, IndexOf, PeriodNamed, IsSafeInteger, IsFinite;
    var colon := IndexOf(text, ':');
    var rest := if colon < |text| then text[colon + 1..] else "";
    ItemsKeepValid(PeriodNamed(text[..colon]).value, Split(rest, ','));
    var b := BudgetOption(text).budget;
    assert b.cacheReads == None || (b.cacheReads.Some? && b.cacheReads.value);
  }

  /** Every text that is accepted, with exponents or without, prints as a text for the same budget. */
  lemma PrintingAndReadingAgain(text: string)
    requires BudgetOption(text).Accepted?
    ensures var b := BudgetOption(text).budget; Valid(b) && BudgetOption(BudgetText(b)) == Accepted(b)
  {
    AcceptedIsValid(text);
    hide *;
    BudgetReads(BudgetOption(text).budget);
  }

  // ---------- A printed quota reads back ----------

  datatype Quota = Quota(requestsPerMinute: Option<Number>, budgets: Option<seq<Budget>>)

  predicate IsPositiveInteger(x: Number) { x.Positive? && IsSafeInteger(x) }

  predicate ValidQuota(q: Quota) {
    && (q.requestsPerMinute.Some? ==> IsPositiveInteger(q.requestsPerMinute.value))
    && (q.budgets.Some? ==> forall budget :: budget in q.budgets.value ==> Valid(budget))
  }

  function ListOf(budgets: Option<seq<Budget>>): seq<Budget> {
    if budgets.Some? then budgets.value else []
  }

  /** The options, each with its value, in the order `quotaFlags` prints them. */
  function BudgetFlags(budgets: seq<Budget>): seq<(string, string)>
    requires forall budget :: budget in budgets ==> Valid(budget)
  {
    if budgets == [] then [] else [("--budget", BudgetText(budgets[0]))] + BudgetFlags(budgets[1..])
  }

  function Flags(q: Quota): seq<(string, string)>
    requires ValidQuota(q)
  {
    (if q.requestsPerMinute.Some? then [("--rpm", Print(q.requestsPerMinute.value))] else []) +
        BudgetFlags(ListOf(q.budgets))
  }

  function FlagTexts(flags: seq<(string, string)>): seq<string> {
    if flags == [] then [] else [flags[0].0 + " " + flags[0].1] + FlagTexts(flags[1..])
  }

  function QuotaFlags(q: Quota): string
    requires ValidQuota(q)
  {
    Join(FlagTexts(Flags(q)), ' ')
  }

  /** `--rpm` (the last one counts) and every `--budget`, as the parser collects them. */
  datatype Given = Given(rpm: Option<string>, budgets: seq<string>)

  function Collect(words: seq<string>): Option<Given>
    decreases words
  {
    if words == [] then Some(Given(None, []))
    else if |words| == 1 then None
    else
      var rest := Collect(words[2..]);
      if rest.None? then None
      else if words[0] == "--rpm" then
          Some(if rest.value.rpm.Some? then rest.value else rest.value.(rpm := Some(words[1])))
      else if words[0] == "--budget" then Some(rest.value.(budgets := [words[1]] + rest.value.budgets))
      else None
  }

  datatype QuotaRead = NoQuota | Refused | Read(quota: Quota)

  function ReadAll(texts: seq<string>): Option<seq<Budget>> {
    if texts == [] then Some([])
    else
      var first, rest := BudgetOption(texts[0]), ReadAll(texts[1..]);
      if first.Accepted? && rest.Some? then Some([first.budget] + rest.value) else None
  }

  function QuotaOptions(given: Given): QuotaRead {
    var budgets := ReadAll(given.budgets);
    var rpm := if given.rpm.Some? then Decimal.Read(given.rpm.value) else None;
    if budgets.None? then Refused
    else if given.rpm.Some? && (rpm.None? || !IsPositiveInteger(rpm.value)) then Refused
    else if given.rpm.None? && budgets.value == [] then NoQuota
    else Read(Quota(rpm, if budgets.value == [] then None else Some(budgets.value)))
  }

  function AllPlainly(budgets: seq<Budget>): seq<Budget> {
    seq(|budgets|, k requires 0 <= k < |budgets| => Plainly(budgets[k]))
  }

  /** The quota that the printed options give: no empty list, no false `cacheReads`. */
  function Reread(q: Quota): QuotaRead {
    var budgets := AllPlainly(ListOf(q.budgets));
    if q.requestsPerMinute.None? && budgets == [] then NoQuota
    else Read(Quota(q.requestsPerMinute, if budgets == [] then None else Some(budgets)))
  }

  function FlagWords(flags: seq<(string, string)>): seq<string> {
    if flags == [] then [] else [flags[0].0, flags[0].1] + FlagWords(flags[1..])
  }

  lemma {:induction false} FlagsAreWords(flags: seq<(string, string)>)
    requires flags != []
    ensures FlagTexts(flags) != [] && FlagWords(flags) != []
    ensures Join(FlagTexts(flags), ' ') == Join(FlagWords(flags), ' ')
  {
    var first := [flags[0].0, flags[0].1];
    assert first[1..] == [flags[0].1];
    assert Join(first, ' ') == flags[0].0 + " " + flags[0].1;
    if |flags| == 1 {
      assert flags[1..] == [];
    } else {
      FlagsAreWords(flags[1..]);
      JoinAppend(first, FlagWords(flags[1..]), ' ');
      JoinAppend([flags[0].0 + " " + flags[0].1], FlagTexts(flags[1..]), ' ');
    }
  }

  predicate Spaceless(flags: seq<(string, string)>) {
    forall flag :: flag in flags ==> ' ' !in flag.0 && ' ' !in flag.1
  }

  lemma {:induction false} FlagWordsHaveNoSpace(flags: seq<(string, string)>)
    requires Spaceless(flags)
    ensures forall word :: word in FlagWords(flags) ==> ' ' !in word
  {
    if flags != [] {
      assert flags[0] in flags && forall flag :: flag in flags[1..] ==> flag in flags;
      FlagWordsHaveNoSpace(flags[1..]);
    }
  }

  lemma FlagLineReads(flags: seq<(string, string)>)
    requires Spaceless(flags) && (flags != [] ==> flags[0].0 != "")
    ensures LineWords(Join(FlagTexts(flags), ' ')) == FlagWords(flags)
  {
    hide Split;
    if flags != [] {
      FlagsAreWords(flags);
      FlagWordsHaveNoSpace(flags);
      SplitJoin(FlagWords(flags), ' ');
      assert FlagTexts(flags)[0] == flags[0].0 + " " + flags[0].1;
    }
  }

  lemma {:induction false} BudgetFlagsRead(budgets: seq<Budget>)
    requires forall budget :: budget in budgets ==> Valid(budget)
    ensures Spaceless(BudgetFlags(budgets))
    ensures var given := Collect(FlagWords(BudgetFlags(budgets)));
            given.Some? && given.value.rpm == None && ReadAll(given.value.budgets) == Some(AllPlainly(budgets))
  {
    hide BudgetOption, BudgetText, Valid, Plainly;
    if budgets != [] {
      assert budgets[0] in budgets && forall budget :: budget in budgets[1..] ==> budget in budgets;
      BudgetReads(budgets[0]);
      BudgetFlagsRead(budgets[1..]);
      var flags := BudgetFlags(budgets);
      assert flags[1..] == BudgetFlags(budgets[1..]);
      var words := FlagWords(flags);
      assert words[2..] == FlagWords(flags[1..]);
      var texts := Collect(words).value.budgets;
      assert texts[1..] == Collect(words[2..]).value.budgets;
      assert AllPlainly(budgets) == [Plainly(budgets[0])] + AllPlainly(budgets[1..]);
    }
  }

  lemma SpacelessJoins(flag: (string, string), flags: seq<(string, string)>)
    requires ' ' !in flag.0 && ' ' !in flag.1 && Spaceless(flags)
    ensures Spaceless([flag] + flags)
  {
  }

  lemma OneFlagMore(flag: (string, string), flags: seq<(string, string)>)
    ensures FlagWords([flag] + flags) == [flag.0, flag.1] + FlagWords(flags)
    ensures flag.0 == "--rpm" && Collect(FlagWords(flags)).Some? && Collect(FlagWords(flags)).value.rpm.None? ==>
              Collect(FlagWords([flag] + flags)) == Some(Collect(FlagWords(flags)).value.(rpm := Some(flag.1)))
  {
    assert ([flag] + flags)[1..] == flags;
    var words := FlagWords([flag] + flags);
    assert words[2..] == FlagWords(flags);
  }

  lemma RpmReads(x: Number)
    requires IsPositiveInteger(x)
    ensures Canonical(x) && ' ' !in Print(x) && Decimal.Read(Print(x)) == Some(x)
  {
    hide Print;
    PrintCharacters(x);
    ReadPrint(x);
  }

  lemma FlagNames(budgets: seq<Budget>)
    requires forall budget :: budget in budgets ==> Valid(budget)
    ensures BudgetFlags(budgets) != [] ==> BudgetFlags(budgets)[0].0 != ""
  {
  }

  lemma FlagsRead(q: Quota)
    requires ValidQuota(q)
    ensures Spaceless(Flags(q)) && (Flags(q) != [] ==> Flags(q)[0].0 != "")
    ensures var given := Collect(FlagWords(Flags(q)));
            && given.Some? && ReadAll(given.value.budgets) == Some(AllPlainly(ListOf(q.budgets)))
            && given.value.rpm == if q.requestsPerMinute.Some? then Some(Print(q.requestsPerMinute.value)) else None
  {
    hide BudgetFlags, AllPlainly, ReadAll, BudgetText, IsSafeInteger, Print, Collect, FlagWords, Spaceless, Valid;
    var budgets, flags := ListOf(q.budgets), Flags(q);
    BudgetFlagsRead(budgets);
    FlagNames(budgets);
    if q.requestsPerMinute.Some? {
      var x := q.requestsPerMinute.value;
      RpmReads(x);
      SpacelessJoins(("--rpm", Print(x)), BudgetFlags(budgets));
      OneFlagMore(("--rpm", Print(x)), BudgetFlags(budgets));
    } else {
      assert flags == BudgetFlags(budgets);
    }
  }

  /** Reading what `quotaFlags` prints for a valid quota gives that quota back. */
  lemma QuotaReads(q: Quota)
    requires ValidQuota(q)
    ensures var given := Collect(LineWords(QuotaFlags(q)));
            given.Some? && QuotaOptions(given.value) == Reread(q)
  {
    hide Flags, AllPlainly, ReadAll, IsSafeInteger, Print, Decimal.Read, Spaceless, Collect, LineWords, FlagWords,
        FlagTexts, Join;
    FlagsRead(q);
    FlagLineReads(Flags(q));
    if q.requestsPerMinute.Some? { RpmReads(q.requestsPerMinute.value); }
  }

  // ---------- What an item, a budget and a quota say ----------

  lemma {:induction false} ItemsKeepPeriod(start: Budget, items: seq<string>)
    ensures WithItems(start, items).Accepted? ==> WithItems(start, items).budget.period == start.period
  {
    hide Trim, ItemName, ItemValue, Decimal.Read, IsSafeInteger, IsFinite;
    if items != [] { ItemsKeepPeriod(start, items[..|items| - 1]); }
  }

  /** The period's name comes before the first colon. */
  lemma PeriodsAre(text: string)
    ensures var name := text[..IndexOf(text, ':')];
            && (BudgetOption(text) == NoSuchPeriod <==> name !in ["day", "week", "month"])
            && (BudgetOption(text).Accepted? ==>
                  BudgetOption(text).budget.period ==
                      if name == "day" then Day else if name == "week" then Week else Month)
  {
    hide Split, IndexOf, WithItem, Trim;
    var colon := IndexOf(text, ':');
    var rest := if colon < |text| then text[colon + 1..] else "";
    if PeriodNamed(text[..colon]).Some? {
      ItemsKeepPeriod(Budget(PeriodNamed(text[..colon]).value, None, None, None), Split(rest, ','));
    }
  }

  lemma UpToTheNext(value: string, dropped: string)
    requires '=' !in value && (dropped == "" || dropped[0] == '=')
    ensures IndexOf(value + dropped, '=') == |value|
  {
    if dropped == "" {
      NotFound(value, '=');
      assert value + dropped == value;
    } else {
      assert value + dropped == value + "=" + dropped[1..];
      IndexAfter(value, '=', dropped[1..]);
    }
  }

  lemma ValuedParts(name: string, value: string, dropped: string)
    requires '=' !in name && '=' !in value && (dropped == "" || dropped[0] == '=')
    ensures var item := name + "=" + value + dropped; ItemName(item) == name && ItemValue(item) == Some(value)
  {
    var item, rest := name + "=" + value + dropped, value + dropped;
    assert item == name + "=" + rest;
    IndexAfter(name, '=', rest);
    UpToTheNext(value, dropped);
    hide IndexOf;
    assert item[..|name|] == name && item[|name| + 1..] == rest && rest[..|value|] == value;
  }

  /** An item with a value: its name before the first `=`, its value up to a second one. */
  lemma ValuedItem(budget: Budget, name: string, value: string, dropped: string)
    requires '=' !in name && '=' !in value && (dropped == "" || dropped[0] == '=')
    ensures var item, number := name + "=" + value + dropped, Decimal.Read(value);
            WithItem(budget, item) ==
              if name == "tokens" && number.Some? && IsSafeInteger(number.value) then
                Accepted(Budget(budget.period, number, budget.costUsd, budget.cacheReads))
              else if name == "cost" && number.Some? && IsFinite(number.value) then
                Accepted(Budget(budget.period, budget.tokens, number, budget.cacheReads))
              else NoSuchItem(item)
  {
    hide Decimal.Read, IsSafeInteger, IsFinite, ItemName, ItemValue;
    ValuedParts(name, value, dropped);
  }

  /** An item without a value. */
  lemma BareItem(budget: Budget, item: string)
    requires '=' !in item
    ensures WithItem(budget, item) ==
              if item == "cache-reads" then Accepted(Budget(budget.period, budget.tokens, budget.costUsd, Some(true)))
              else NoSuchItem(item)
  {
    NoValue(item);
    hide ItemName, ItemValue;
  }

  /** Items are taken one after the other, each trimmed; empty ones are passed over, and the first bad one
      is what is refused. */
  lemma ItemsOneByOne(start: Budget, items: seq<string>, last: string)
    ensures WithItems(start, []) == Accepted(start)
    ensures var before, all := WithItems(start, items), WithItems(start, items + [last]);
            && (!before.Accepted? || Trim(last) == "" ==> all == before)
            && (before.Accepted? && Trim(last) != "" ==> all == WithItem(before.budget, Trim(last)))
  {
    hide Trim, WithItem;
    var all := items + [last];
    assert all[..|all| - 1] == items;
  }

  /** What is accepted are the items behind the period with a cap among them. */
  lemma BudgetIs(name: string, period: Period, items: seq<string>)
    requires PeriodNamed(name) == Some(period) && items != [] && forall item :: item in items ==> ',' !in item
    ensures var r := WithItems(Budget(period, None, None, None), items);
            BudgetOption(name + ":" + Join(items, ',')) ==
              if r.Accepted? && r.budget.tokens.None? && r.budget.costUsd.None? then NeedsACap else r
  {
    hide WithItems;
    var text := name + ":" + Join(items, ',');
    assert ':' !in name;
    IndexAfter(name, ':', Join(items, ','));
    assert text[..|name|] == name && text[|name| + 1..] == Join(items, ',');
    SplitJoin(items, ',');
  }

  lemma {:induction false} ReadAllIs(texts: seq<string>)
    ensures ReadAll(texts).Some? <==> forall text :: text in texts ==> BudgetOption(text).Accepted?
    ensures ReadAll(texts).Some? ==> |ReadAll(texts).value| == |texts|
    ensures ReadAll(texts).Some? ==>
              forall k :: 0 <= k < |texts| ==> BudgetOption(texts[k]) == Accepted(ReadAll(texts).value[k])
  {
    hide BudgetOption;
    if texts != [] {
      ReadAllIs(texts[1..]);
      assert texts[0] in texts && forall text :: text in texts[1..] ==> text in texts;
      assert forall text :: text in texts ==> text == texts[0] || text in texts[1..];
    }
  }

  /** A quota is refused for a budget that is, or a number that is not a positive safe integer; there is
      none without either option; and otherwise it holds them, in order. */
  lemma QuotaIs(given: Given)
    ensures var rpm := if given.rpm.Some? then Decimal.Read(given.rpm.value) else None;
            var isBad := given.rpm.Some? && !(rpm.Some? && rpm.value.Positive? && IsSafeInteger(rpm.value));
            && (QuotaOptions(given) == Refused <==>
                  isBad || exists text :: text in given.budgets && !BudgetOption(text).Accepted?)
            && (QuotaOptions(given) == NoQuota <==> given.rpm.None? && given.budgets == [])
            && (QuotaOptions(given).Read? ==>
                  var quota := QuotaOptions(given).quota;
                  && quota.requestsPerMinute == rpm && (quota.budgets.Some? <==> given.budgets != [])
                  && (quota.budgets.Some? ==>
                        && |quota.budgets.value| == |given.budgets|
                        && forall k :: 0 <= k < |given.budgets| ==>
                             BudgetOption(given.budgets[k]) == Accepted(quota.budgets.value[k])))
  {
    hide Decimal.Read, IsSafeInteger, BudgetOption, ReadAll;
    ReadAllIs(given.budgets);
  }
}
