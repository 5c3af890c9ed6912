/** String helpers shared by the CSV export and the label description:
    JavaScript's `Array.prototype.join` and `String.prototype.split` with a
    one-character separator, plus the decimal rendering of an integer. */
module Text {

  /** The parts with `sep` between neighbours, and "" for no parts. */
  function Join(parts: seq<string>, sep: string): string
    decreases |parts|
  {
    if |parts| == 0 then ""
    else if |parts| == 1 then parts[0]
    else parts[0] + sep + Join(parts[1..], sep)
  }

  /** A join of two or more parts is the first part, the separator and the join of the rest. */
  lemma JoinCons(parts: seq<string>, sep: string)
    requires |parts| > 1
    ensures Join(parts, sep) == parts[0] + sep + Join(parts[1..], sep)
  {
  }

  lemma MulStep(a: int, b: int)
    ensures (a + 1) * b == a * b + b
  {
  }

  /** A join starts with its first part. */
  lemma JoinStartsWithFirst(parts: seq<string>, sep: string)
    requires |parts| > 0
    ensures |parts[0]| <= |Join(parts, sep)|
    ensures Join(parts, sep)[..|parts[0]|] == parts[0]
  {
    if |parts| > 1 {
      var r := parts[0] + sep + Join(parts[1..], sep);
      assert r[..|parts[0]|] == parts[0];
    }
  }

  /** A join is as long as its parts together plus one separator between each neighbouring pair. */
  lemma {:induction false} JoinLength(parts: seq<string>, sep: string)
    requires |parts| > 0
    ensures |Join(parts, sep)| == TotalLength(parts) + (|parts| - 1) * |sep|
    decreases |parts|
  {
    if |parts| > 1 {
      JoinLength(parts[1..], sep);
      MulStep(|parts| - 2, |sep|);
      assert |Join(parts, sep)| == |parts[0]| + |sep| + |Join(parts[1..], sep)|;
    }
  }

  /** Sum of the lengths of the parts. */
  function TotalLength(parts: seq<string>): nat
    decreases |parts|
  {
    if |parts| == 0 then 0 else |parts[0]| + TotalLength(parts[1..])
  }

  /** The pieces of `s` between occurrences of `c`: one more piece than there
      are occurrences, and no piece contains `c`. */
  function Split(s: string, c: char): (r: seq<string>)
    ensures |r| == multiset(s)[c] + 1
    ensures forall i :: 0 <= i < |r| ==> c !in r[i]
    decreases |s|
  {
    if |s| == 0 then [""]
    else
      assert s == [s[0]] + s[1..];
      var rest := Split(s[1..], c);
      if s[0] == c then [""] + rest
      else [[s[0]] + rest[0]] + rest[1..]
  }

  lemma {:induction false} SplitWithoutSeparator(s: string, c: char)
    requires c !in s
    ensures Split(s, c) == [s]
    decreases |s|
  {
    if |s| > 0 {
      SplitWithoutSeparator(s[1..], c);
      assert [s[0]] + s[1..] == s;
    }
  }

  /** Splitting at the first separator peels off the piece before it. */
  lemma {:induction false} SplitAfterPiece(a: string, c: char, b: string)
    requires c !in a
    ensures Split(a + [c] + b, c) == [a] + Split(b, c)
    decreases |a|
  {
    var s := a + [c] + b;
    if |a| > 0 {
      assert s[1..] == a[1..] + [c] + b;
      SplitAfterPiece(a[1..], c, b);
      assert [a[0]] + a[1..] == a;
    } else {
      assert s[1..] == b;
    }
  }

  /** Splitting a join at its separator character gives the parts back,
      provided no part contains that character. */
  lemma {:induction false} SplitJoin(parts: seq<string>, c: char)
    requires |parts| > 0
    requires forall i :: 0 <= i < |parts| ==> c !in parts[i]
    ensures Split(Join(parts, [c]), c) == parts
    decreases |parts|
  {
    if |parts| == 1 {
      SplitWithoutSeparator(parts[0], c);
    } else {
      SplitJoin(parts[1..], c);
      SplitAfterPiece(parts[0], c, Join(parts[1..], [c]));
      assert [parts[0]] + parts[1..] == parts;
    }
  }

  /** Joining one more part appends the separator and that part. */
  lemma {:induction false} JoinSnoc(parts: seq<string>, p: string, sep: string)
    requires |parts| > 0
    ensures Join(parts + [p], sep) == Join(parts, sep) + sep + p
    decreases |parts|
  {
    if |parts| == 1 {
      assert parts + [p] == [parts[0], p];
    } else {
      assert (parts + [p])[1..] == parts[1..] + [p];
      JoinSnoc(parts[1..], p, sep);
    }
  }

  /** Total number of occurrences of `c` in the parts. */
  function CountIn(parts: seq<string>, c: char): nat
    decreases |parts|
  {
    if |parts| == 0 then 0 else multiset(parts[0])[c] + CountIn(parts[1..], c)
  }

  /** Parts none of which holds `c` hold no `c` in total. */
  lemma {:induction false} CountAllNone(parts: seq<string>, c: char)
    requires forall k :: 0 <= k < |parts| ==> c !in parts[k]
    ensures CountIn(parts, c) == 0
    decreases |parts|
  {
    if |parts| > 0 {
      CountAllNone(parts[1..], c);
    }
  }

  /** A join holds the occurrences of `c` in its parts, plus one per separator
      when the separator is `c` itself, and no more when the separator avoids `c`. */
  lemma {:induction false} JoinCount(parts: seq<string>, sep: string, c: char)
    requires |parts| > 0
    ensures sep == [c] ==> multiset(Join(parts, sep))[c] == CountIn(parts, c) + |parts| - 1
    ensures c !in sep ==> multiset(Join(parts, sep))[c] == CountIn(parts, c)
    decreases |parts|
  {
    if |parts| > 1 {
      var rest := parts[1..];
      JoinCount(rest, sep, c);
      assert Join(parts, sep) == parts[0] + sep + Join(rest, sep);
      assert multiset(Join(parts, sep))[c] == multiset(parts[0])[c] + multiset(sep)[c] + multiset(Join(rest, sep))[c];
    }
  }

  /** A character in neither the parts nor the separator is not in the join. */
  lemma JoinAvoids(parts: seq<string>, sep: string, c: char)
    requires c !in sep
    requires forall k :: 0 <= k < |parts| ==> c !in parts[k]
    ensures c !in Join(parts, sep)
  {
    if |parts| > 0 {
      JoinCount(parts, sep, c);
      CountAllNone(parts, c);
      assert multiset(Join(parts, sep))[c] == 0;
    }
  }

  /** Decimal digits of a natural number, most significant first. */
  function NatText(n: nat): (r: string)
    ensures |r| > 0
    ensures forall i :: 0 <= i < |r| ==> '0' <= r[i] <= '9'
    decreases n
  {
    if n < 10 then [Digit(n)] else NatText(n / 10) + [Digit(n % 10)]
  }

  /** The character of the decimal digit `d`. */
  function Digit(d: nat): (r: char)
    requires d < 10
    ensures '0' <= r <= '9'
    ensures DigitValue(r) == d
  {
    (48 + d) as char
  }

  /** The value of a decimal digit character, and 0 for any other character. */
  function DigitValue(c: char): nat
  {
    if '0' <= c <= '9' then c as int - 48 else 0
  }

  /** The number a string of decimal digits denotes, most significant digit first. */
  function DecimalValue(s: string): nat
    decreases |s|
  {
    if |s| == 0 then 0 else 10 * DecimalValue(s[..|s| - 1]) + DigitValue(s[|s| - 1])
  }

  /** The number a '-' and digits, or digits alone, denote. */
  function IntValue(s: string): int
  {
    if |s| > 0 && s[0] == '-' then -(DecimalValue(s[1..]) as int) else DecimalValue(s)
  }

  /** Reading the digits of `n` back gives `n`, and there is no leading zero. */
  lemma {:induction false} NatTextValue(n: nat)
    ensures DecimalValue(NatText(n)) == n
    ensures |NatText(n)| > 1 ==> NatText(n)[0] != '0'
    ensures 0 < n ==> NatText(n)[0] != '0'
    decreases n
  {
    if n >= 10 {
      var front := NatText(n / 10);
      NatTextValue(n / 10);
      var r := front + [Digit(n % 10)];
      assert r[..|r| - 1] == front;
      assert r[0] == front[0];
    }
  }

  /** How JavaScript writes an integer-valued number below 10^21: a '-' exactly
      for a negative number, then the digits of its magnitude. */
  function IntText(n: int): (r: string)
    ensures |r| > 0
    ensures forall i :: 0 <= i < |r| ==> r[i] == '-' || '0' <= r[i] <= '9'
    ensures forall i :: 0 < i < |r| ==> r[i] != '-'
    ensures n >= 0 <==> r[0] != '-'
  {
    if n < 0 then "-" + NatText(-n) else NatText(n)
  }

  /** Reading the text of `n` back gives `n`, and its digits have no leading zero. */
  lemma IntTextValue(n: int)
    ensures IntValue(IntText(n)) == n
    ensures n >= 0 ==> DecimalValue(IntText(n)) == n
    ensures var digits := if n < 0 then IntText(n)[1..] else IntText(n);
      |digits| > 1 ==> digits[0] != '0'
  {
    if n < 0 {
      NatTextValue(-n);
      assert IntText(n)[1..] == NatText(-n);
    } else {
      NatTextValue(n);
    }
  }
}
