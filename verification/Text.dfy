/** The string operations the command-line models share: `split`, `join`, `trim`, decimal digits. */
module Text {
  /** Where `mark` first is in `items`, or their number when it is nowhere. */
  function IndexOf<T(==)>(items: seq<T>, mark: T): (at: nat)
    ensures at <= |items| && mark !in items[..at] && (at < |items| ==> items[at] == mark)
  {
    if items == [] || items[0] == mark then 0 else 1 + IndexOf(items[1..], mark)
  }

  /** `text.split(mark)`: never empty. */
  function Split(text: string, mark: char): (parts: seq<string>)
    ensures parts != []
    decreases |text|
  {
    var at := IndexOf(text, mark);
    if at == |text| then [text] else [text[..at]] + Split(text[at + 1..], mark)
  }

  function Join(parts: seq<string>, mark: char): string {
    if parts == [] then "" else if |parts| == 1 then parts[0] else parts[0] + [mark] + Join(parts[1..], mark)
  }

  lemma {:induction false} IndexAfter(front: string, mark: char, rest: string)
    requires mark !in front
    ensures IndexOf(front + [mark] + rest, mark) == |front|
  {
    var text := front + [mark] + rest;
    if front != "" {
      assert text[0] == front[0] && text[1..] == front[1..] + [mark] + rest;
      IndexAfter(front[1..], mark, rest);
    }
  }

  lemma SplitNone(text: string, mark: char)
    requires mark !in text
    ensures Split(text, mark) == [text]
  {
  }

  lemma SplitFirst(front: string, mark: char, rest: string)
    requires mark !in front
    ensures Split(front + [mark] + rest, mark) == [front] + Split(rest, mark)
  {
    var text := front + [mark] + rest;
    IndexAfter(front, mark, rest);
    assert text[..|front|] == front && text[|front| + 1..] == rest;
  }

  lemma {:induction false} SplitJoin(parts: seq<string>, mark: char)
    requires parts != [] && forall part :: part in parts ==> mark !in part
    ensures Split(Join(parts, mark), mark) == parts
  {
    if |parts| == 1 {
      SplitNone(parts[0], mark);
    } else {
      SplitFirst(parts[0], mark, Join(parts[1..], mark));
      SplitJoin(parts[1..], mark);
    }
  }

  lemma {:induction false} JoinSplit(text: string, mark: char)
    ensures Join(Split(text, mark), mark) == text
    ensures forall part :: part in Split(text, mark) ==> mark !in part
    decreases |text|
  {
    var at := IndexOf(text, mark);
    if at < |text| {
      JoinSplit(text[at + 1..], mark);
      var rest := Split(text[at + 1..], mark);
      assert Split(text, mark)[1..] == rest;
      assert text == text[..at] + [mark] + text[at + 1..];
    }
  }

  lemma {:induction false} JoinAppend(a: seq<string>, b: seq<string>, mark: char)
    requires a != [] && b != []
    ensures Join(a + b, mark) == Join(a, mark) + [mark] + Join(b, mark)
  {
    var c := a + b;
    if |a| == 1 {
      assert c[1..] == b;
    } else {
      assert c[1..] == a[1..] + b;
      JoinAppend(a[1..], b, mark);
    }
  }

  lemma {:induction false} JoinCharacters(parts: seq<string>, mark: char)
    ensures forall c :: c in Join(parts, mark) ==> c == mark || exists part :: part in parts && c in part
  {
    if |parts| > 1 {
      JoinCharacters(parts[1..], mark);
      forall c | c in Join(parts, mark) ensures c == mark || exists part :: part in parts && c in part {
        if c in parts[0] {
        } else if c != mark {
          var part :| part in parts[1..] && c in part;
          assert part in parts;
        }
      }
    }
  }

  /** The words of a line without quotes or repeated spaces. */
  function LineWords(line: string): seq<string> {
    if line == "" then [] else Split(line, ' ')
  }

  lemma LineReads(words: seq<string>)
    requires forall word :: word in words ==> word != "" && ' ' !in word
    ensures LineWords(Join(words, ' ')) == words
  {
    hide Split;
    if words != [] {
      SplitJoin(words, ' ');
      assert words[0] in words;
    }
  }

  // ---------- trim ----------

  /** ECMA-262's WhiteSpace and LineTerminator. */
  predicate IsSpace(c: char) {
    var code := c as int;
    9 <= code <= 13 || code in {32, 160, 0x1680, 0x2028, 0x2029, 0x202F, 0x205F, 0x3000, 0xFEFF}
        || 0x2000 <= code <= 0x200A
  }

  function TrimStart(text: string): string {
    if text != "" && IsSpace(text[0]) then TrimStart(text[1..]) else text
  }

  function TrimEnd(text: string): string {
    if text != "" && IsSpace(text[|text| - 1]) then TrimEnd(text[..|text| - 1]) else text
  }

  function Trim(text: string): string {
    TrimEnd(TrimStart(text))
  }

  lemma TrimNothing(text: string)
    requires text == "" || (!IsSpace(text[0]) && !IsSpace(text[|text| - 1]))
    ensures Trim(text) == text
  {
  }

  lemma {:induction false} TrimStartIs(text: string) returns (front: string)
    ensures text == front + TrimStart(text) && forall c :: c in front ==> IsSpace(c)
    ensures TrimStart(text) == "" || !IsSpace(TrimStart(text)[0])
  {
    if text != "" && IsSpace(text[0]) {
      front := TrimStartIs(text[1..]);
      front := [text[0]] + front;
    } else {
      front := "";
    }
  }

  lemma {:induction false} TrimEndIs(text: string) returns (back: string)
    ensures text == TrimEnd(text) + back && forall c :: c in back ==> IsSpace(c)
    ensures TrimEnd(text) == "" || !IsSpace(TrimEnd(text)[|TrimEnd(text)| - 1])
  {
    if text != "" && IsSpace(text[|text| - 1]) {
      back := TrimEndIs(text[..|text| - 1]);
      back := back + [text[|text| - 1]];
    } else {
      back := "";
    }
  }

  /** Only white space goes, at both ends, and all that is there. */
  lemma TrimIs(text: string) returns (front: string, back: string)
    ensures text == front + Trim(text) + back && forall c :: c in front + back ==> IsSpace(c)
    ensures Trim(text) == "" || (!IsSpace(Trim(text)[0]) && !IsSpace(Trim(text)[|Trim(text)| - 1]))
  {
    hide IsSpace;
    front := TrimStartIs(text);
    back := TrimEndIs(TrimStart(text));
  }

  /** `text.toLowerCase()`, for the letters of ASCII. */
  function Lower(text: string): string {
    seq(|text|, k requires 0 <= k < |text| => if 'A' <= text[k] <= 'Z' then text[k] - 'A' + 'a' else text[k])
  }

  // ---------- Decimal digits ----------

  predicate IsDigit(c: char) { '0' <= c <= '9' }

  predicate AllDigits(text: string) {
    forall c :: c in text ==> IsDigit(c)
  }

  function DigitOf(n: nat): char
    requires n < 10
  {
    '0' + n as char
  }

  function ValueOf(c: char): nat
    requires IsDigit(c)
  {
    (c - '0') as nat
  }

  function NatText(n: nat): string {
    if n < 10 then [DigitOf(n)] else NatText(n / 10) + [DigitOf(n % 10)]
  }

  function NatValue(text: string): nat
    requires AllDigits(text)
  {
    if text == "" then 0 else NatValue(text[..|text| - 1]) * 10 + ValueOf(text[|text| - 1])
  }

  lemma {:induction false} NatTextReads(n: nat)
    ensures NatText(n) != "" && AllDigits(NatText(n)) && NatValue(NatText(n)) == n
  {
    if n >= 10 {
      NatTextReads(n / 10);
      var text := NatText(n);
      assert text[..|text| - 1] == NatText(n / 10);
    } else {
      assert NatText(n)[..0] == "";
    }
  }

  /** Leading zeros are worth nothing. */
  lemma {:induction false} LeadingZeroValue(digits: string)
    requires AllDigits(digits) && digits != "" && digits[0] == '0'
    ensures NatValue(digits[1..]) == NatValue(digits)
  {
    if |digits| > 1 {
      var front := digits[..|digits| - 1];
      LeadingZeroValue(front);
      assert front[1..] == digits[1..][..|digits| - 2];
    } else {
      assert NatValue(digits[..0]) == 0 && digits[1..] == "";
    }
  }
}
