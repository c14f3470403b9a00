/** A route group's rules, edited in place: packages/cli/src/admin.ts, `rulePlace` and
    `groupRuleCommand`. Places count from 1. */
module RuleList {
  import opened Optional
  import opened Text

  type Rule = string

  /** `Array.prototype.splice(at, remove, ...items)` where the places exist. */
  function Spliced(rules: seq<Rule>, at: nat, remove: nat, items: seq<Rule>): (r: seq<Rule>)
    requires at + remove <= |rules|
    ensures |r| == |rules| - remove + |items|
  {
    rules[..at] + items + rules[at + remove..]
  }

  function Added(rules: seq<Rule>, place: nat, rule: Rule): seq<Rule>
    requires 1 <= place <= |rules| + 1
  {
    Spliced(rules, place - 1, 0, [rule])
  }

  function RemovedAt(rules: seq<Rule>, n: nat): seq<Rule>
    requires 1 <= n <= |rules|
  {
    Spliced(rules, n - 1, 1, [])
  }

  function Moved(rules: seq<Rule>, n: nat, place: nat): seq<Rule>
    requires 1 <= n <= |rules| && 1 <= place <= |rules|
  {
    Spliced(RemovedAt(rules, n), place - 1, 0, [rules[n - 1]])
  }

  /** A rule's place from 1 within `count`: plain digits, any number of leading zeros. */
  function RulePlace(text: Option<string>, count: nat): (place: Option<nat>)
    ensures place.Some? ==> 1 <= place.value <= count
  {
    if text.Some? && text.value != "" && AllDigits(text.value) && 1 <= NatValue(text.value) <= count
    then Some(NatValue(text.value)) else None
  }

  /** The group's rules as the command changes them. */
  class Group {
    var rules: seq<Rule>

    constructor (rules: seq<Rule>)
      ensures this.rules == rules
    {
      this.rules := rules;
    }

    method Splice(at: nat, remove: nat, items: seq<Rule>) returns (removed: seq<Rule>)
      requires at + remove <= |rules|
      modifies this
      ensures rules == Spliced(old(rules), at, remove, items) && removed == old(rules)[at..at + remove]
    {
      removed := rules[at..at + remove];
      rules := rules[..at] + items + rules[at + remove..];
    }

    /** `rule add`: without a place, at the end. */
    method Add(rule: Rule, place: Option<string>) returns (at: Option<nat>)
      modifies this
      ensures at == if place.None? then Some(|old(rules)| + 1) else RulePlace(place, |old(rules)| + 1)
      ensures rules == if at.Some? then Added(old(rules), at.value, rule) else old(rules)
    {
      at := if place.None? then Some(|rules| + 1) else RulePlace(place, |rules| + 1);
      if at.Some? {
        var removed := Splice(at.value - 1, 0, [rule]);
      }
    }

    /** `rule remove`. */
    method Remove(place: Option<string>) returns (n: Option<nat>)
      modifies this
      ensures n == RulePlace(place, |old(rules)|)
      ensures rules == if n.Some? then RemovedAt(old(rules), n.value) else old(rules)
    {
      n := RulePlace(place, |rules|);
      if n.Some? {
        var removed := Splice(n.value - 1, 1, []);
      }
    }

    /** `rule move`: out of its place, then in at the other. */
    method Move(from: Option<string>, to: Option<string>) returns (done: bool)
      modifies this
      ensures done == (RulePlace(from, |old(rules)|).Some? && RulePlace(to, |old(rules)|).Some?)
      ensures rules == if done then
          Moved(old(rules), RulePlace(from, |old(rules)|).value, RulePlace(to, |old(rules)|).value)
                       else old(rules)
    {
      hide RulePlace, Spliced;
      var n, place := RulePlace(from, |rules|), RulePlace(to, |rules|);
      if n.None? || place.None? {
        return false;
      }
      var moved := Splice(n.value - 1, 1, []);
      assert moved == [old(rules)[n.value - 1]];
      var none := Splice(place.value - 1, 0, moved);
      return true;
    }
  }

  /** Every place from 1 to `count` can be typed, and nothing else is accepted. */
  lemma EveryPlaceCanBeTyped(n: nat, count: nat)
    ensures RulePlace(Some(NatText(n)), count) == if 1 <= n <= count then Some(n) else None
  {
    NatTextReads(n);
  }

  /** A place is plain digits, and zeros before them do not matter; anything else is refused. */
  lemma PlacesAreDigits(text: string, count: nat)
    ensures RulePlace(None, count) == None && RulePlace(Some(""), count) == None
    ensures !AllDigits(text) ==> RulePlace(Some(text), count) == None
    ensures text != "" ==> RulePlace(Some("0" + text), count) == RulePlace(Some(text), count)
  {
    assert text == ("0" + text)[1..];
    if AllDigits(text) {
      assert AllDigits("0" + text);
      LeadingZeroValue("0" + text);
    } else if text != "" {
      var c :| c in text && !IsDigit(c);
      assert c in "0" + text;
    }
  }

  /** An added rule stands at its place, between those that were before it and those that were there or after. */
  lemma AddedIs(rules: seq<Rule>, place: nat, rule: Rule)
    requires 1 <= place <= |rules| + 1
    ensures var added := Added(rules, place, rule);
            && |added| == |rules| + 1 && added[place - 1] == rule
            && added[..place - 1] == rules[..place - 1] && added[place..] == rules[place - 1..]
  {
  }

  /** Removing takes one rule out; the ones after it move up. */
  lemma RemovedIs(rules: seq<Rule>, n: nat)
    requires 1 <= n <= |rules|
    ensures var rest := RemovedAt(rules, n);
            |rest| == |rules| - 1 && rest[..n - 1] == rules[..n - 1] && rest[n - 1..] == rules[n..]
  {
  }

  lemma AddedHas(rules: seq<Rule>, place: nat, rule: Rule)
    requires 1 <= place <= |rules| + 1
    ensures multiset(Added(rules, place, rule)) == multiset(rules) + multiset{rule}
  {
    assert rules == rules[..place - 1] + rules[place - 1..];
  }

  /** Adding a rule and removing its place changes nothing. */
  lemma AddThenRemove(rules: seq<Rule>, place: nat, rule: Rule)
    requires 1 <= place <= |rules| + 1
    ensures RemovedAt(Added(rules, place, rule), place) == rules
    ensures Added(rules, place, rule)[place - 1] == rule
  {
  }

  /** A moved rule is exactly at its new place, the others keep their order, and nothing is lost. */
  lemma MovedIs(rules: seq<Rule>, n: nat, place: nat)
    requires 1 <= n <= |rules| && 1 <= place <= |rules|
    ensures |Moved(rules, n, place)| == |rules| && Moved(rules, n, place)[place - 1] == rules[n - 1]
    ensures RemovedAt(Moved(rules, n, place), place) == RemovedAt(rules, n)
    ensures multiset(Moved(rules, n, place)) == multiset(rules)
  {
    var rest := RemovedAt(rules, n);
    AddThenRemove(rest, place, rules[n - 1]);
    AddThenRemove(rest, n, rules[n - 1]);
    assert Added(rest, n, rules[n - 1]) == rules;
    AddedHas(rest, place, rules[n - 1]);
    AddedHas(rest, n, rules[n - 1]);
  }

  /** Moving back undoes a move. */
  lemma MoveBack(rules: seq<Rule>, n: nat, place: nat)
    requires 1 <= n <= |rules| && 1 <= place <= |rules|
    ensures |Moved(rules, n, place)| == |rules|
    ensures Moved(Moved(rules, n, place), place, n) == rules
  {
    MovedIs(rules, n, place);
    var rest := RemovedAt(rules, n);
    assert Spliced(rest, n - 1, 0, [rules[n - 1]]) == rules;
  }
}
