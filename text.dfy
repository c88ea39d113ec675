/**
 * String helpers that the query compiler relies on: JavaScript's
 * `Array.prototype.join`, splitting at a separator character (its partner),
 * and the decimal rendering of integers that a template literal performs.
 */
module Text {

  /** `parts.join(sep)`: the parts with `sep` between neighbours; `[]` gives "". */
  function Join(parts: seq<string>, sep: string): string
  {
    if |parts| == 0 then ""
    else if |parts| == 1 then parts[0]
    else Join(parts[..|parts| - 1], sep) + sep + parts[|parts| - 1]
  }

  /** Joining one more part at the front adds it and one separator. */
  lemma {:induction false} JoinCons(x: string, parts: seq<string>, sep: string)
    requires parts != []
    ensures Join([x] + parts, sep) == x + sep + Join(parts, sep)
  {
    var all := [x] + parts;
    if |parts| == 1 {
      assert all[..1] == [x];
    } else {
      var init := parts[..|parts| - 1];
      assert all[..|all| - 1] == [x] + init;
      JoinCons(x, init, sep);
    }
  }

  /** Rewriting the first part (as `query[0] = p + query[0]` does) prefixes the join. */
  lemma {:induction false} JoinPrefixFirst(p: string, parts: seq<string>, sep: string)
    requires parts != []
    ensures Join([p + parts[0]] + parts[1..], sep) == p + Join(parts, sep)
  {
    if |parts| > 1 {
      JoinCons(parts[0], parts[1..], sep);
      JoinCons(p + parts[0], parts[1..], sep);
      assert [parts[0]] + parts[1..] == parts;
    }
  }

  /** A join starts with its first part. */
  lemma {:induction false} JoinStartsWithFirst(parts: seq<string>, sep: string)
    requires parts != []
    ensures parts[0] <= Join(parts, sep)
  {
    if |parts| > 1 {
      JoinCons(parts[0], parts[1..], sep);
      assert [parts[0]] + parts[1..] == parts;
    }
  }

  /** Joining non-empty parts gives "" exactly when there are no parts. */
  lemma {:induction false} JoinEmptyIff(parts: seq<string>, sep: string)
    requires forall i :: 0 <= i < |parts| ==> parts[i] != ""
    ensures Join(parts, sep) == "" <==> parts == []
  {
    if |parts| > 1 {
      assert |Join(parts, sep)| >= |parts[|parts| - 1]| > 0;
    }
  }

  lemma AppendAssoc<T>(a: seq<T>, b: seq<T>, c: seq<T>)
    ensures (a + b) + c == a + (b + c)
  {
  }

  /** No part contains the character `c`. */
  predicate NoneContains(parts: seq<string>, c: char)
  {
    forall i :: 0 <= i < |parts| ==> c !in parts[i]
  }

  lemma NoneContainsAppend(a: seq<string>, b: seq<string>, c: char)
    requires NoneContains(a, c) && NoneContains(b, c)
    ensures NoneContains(a + b, c)
  {
    forall i | 0 <= i < |a + b| ensures c !in (a + b)[i] {
      if i >= |a| { assert (a + b)[i] == b[i - |a|]; }
    }
  }

  /** No occurrence of `c` in any part nor in the separator: none in the join. */
  lemma {:induction false} JoinFree(parts: seq<string>, sep: string, c: char)
    requires forall i :: 0 <= i < |parts| ==> c !in parts[i]
    requires c !in sep
    ensures c !in Join(parts, sep)
  {
    if |parts| > 1 {
      JoinFree(parts[..|parts| - 1], sep, c);
    }
  }

  /** The pieces of `s` between occurrences of `c`; always at least one piece. */
  function Split(s: string, c: char): (r: seq<string>)
    ensures |r| >= 1
    ensures forall i :: 0 <= i < |r| ==> c !in r[i]
  {
    if |s| == 0 then [""]
    else
      var rest := Split(s[1..], c);
      if s[0] == c then [""] + rest
      else [[s[0]] + rest[0]] + rest[1..]
  }

  /** Splitting a text that starts with a `c`-free piece keeps that piece in front. */
  lemma {:induction false} SplitFreePrefix(x: string, t: string, c: char)
    requires c !in x
    ensures Split(x + t, c) == [x + Split(t, c)[0]] + Split(t, c)[1..]
  {
    var st := Split(t, c);
    if |x| == 0 {
      assert x + t == t;
      assert x + st[0] == st[0];
      assert [st[0]] + st[1..] == st;
    } else {
      SplitFreePrefix(x[1..], t, c);
      assert (x + t)[0] == x[0] && (x + t)[1..] == x[1..] + t;
      var rest := Split(x[1..] + t, c);
      assert rest == [x[1..] + st[0]] + st[1..];
      assert Split(x + t, c) == [[x[0]] + rest[0]] + rest[1..];
      assert [x[0]] + (x[1..] + st[0]) == x + st[0];
    }
  }

  /** A leading separator opens an empty first piece. */
  lemma SplitAfterSeparator(t: string, c: char)
    ensures Split([c] + t, c) == [""] + Split(t, c)
  {
    assert ([c] + t)[1..] == t;
  }

  /** Split undoes Join when the parts do not contain the one-character separator. */
  lemma {:induction false} SplitJoin(parts: seq<string>, c: char)
    requires parts != []
    requires forall i :: 0 <= i < |parts| ==> c !in parts[i]
    ensures Split(Join(parts, [c]), c) == parts
  {
    var first := parts[0];
    if |parts| == 1 {
      SplitFreePrefix(first, "", c);
      assert first + "" == first;
    } else {
      var rest := parts[1..];
      var tail := [c] + Join(rest, [c]);
      assert [first] + rest == parts;
      JoinCons(first, rest, [c]);
      AppendAssoc(first, [c], Join(rest, [c]));
      assert Join(parts, [c]) == first + tail;
      SplitJoin(rest, c);
      SplitAfterSeparator(Join(rest, [c]), c);
      assert Split(tail, c) == [""] + rest;
      SplitFreePrefix(first, tail, c);
      assert first + "" == first;
    }
  }

  /** How many times `c` occurs in `s`. */
  function Occurrences(s: string, c: char): nat
  {
    if s == "" then 0 else (if s[0] == c then 1 else 0) + Occurrences(s[1..], c)
  }

  lemma {:induction false} OccurrencesAppend(s: string, t: string, c: char)
    ensures Occurrences(s + t, c) == Occurrences(s, c) + Occurrences(t, c)
  {
    if s != "" {
      assert (s + t)[1..] == s[1..] + t;
      OccurrencesAppend(s[1..], t, c);
    } else {
      assert s + t == t;
    }
  }

  lemma {:induction false} OccurrencesPositive(s: string, c: char)
    requires c in s
    ensures Occurrences(s, c) >= 1
  {
    if s[0] != c {
      OccurrencesPositive(s[1..], c);
    }
  }

  /** Splitting at `c` gives one piece more than there are `c`s. */
  lemma {:induction false} SplitLength(s: string, c: char)
    ensures |Split(s, c)| == Occurrences(s, c) + 1
  {
    if s != "" {
      SplitLength(s[1..], c);
    }
  }

  /** A character of one part is a character of the join. */
  lemma {:induction false} JoinContains(parts: seq<string>, sep: string, k: nat, c: char)
    requires k < |parts| && c in parts[k]
    ensures c in Join(parts, sep)
  {
    if |parts| > 1 && k < |parts| - 1 {
      JoinContains(parts[..|parts| - 1], sep, k, c);
    }
  }

  /** Joining with `c` writes at least one `c` between neighbours, more if a part holds one. */
  lemma {:induction false} JoinOccurrences(parts: seq<string>, c: char, k: nat)
    requires k < |parts| && c in parts[k]
    ensures Occurrences(Join(parts, [c]), c) >= |parts|
  {
    if |parts| == 1 {
      OccurrencesPositive(parts[0], c);
    } else {
      var init := parts[..|parts| - 1];
      var last := parts[|parts| - 1];
      OccurrencesAppend(Join(init, [c]) + [c], last, c);
      OccurrencesAppend(Join(init, [c]), [c], c);
      if k < |parts| - 1 {
        JoinOccurrences(init, c, k);
      } else {
        OccurrencesPositive(last, c);
        JoinOccurrencesAtLeast(init, c);
      }
    }
  }

  lemma {:induction false} JoinOccurrencesAtLeast(parts: seq<string>, c: char)
    requires parts != []
    ensures Occurrences(Join(parts, [c]), c) >= |parts| - 1
  {
    if |parts| > 1 {
      var init := parts[..|parts| - 1];
      var last := parts[|parts| - 1];
      OccurrencesAppend(Join(init, [c]) + [c], last, c);
      OccurrencesAppend(Join(init, [c]), [c], c);
      JoinOccurrencesAtLeast(init, c);
    }
  }

  function DigitChar(d: nat): char
    requires d < 10
  {
    "0123456789"[d]
  }

  function DigitValue(ch: char): nat
    requires '0' <= ch <= '9'
  {
    (ch as int - '0' as int) as nat
  }

  predicate IsDigits(s: string)
  {
    s != [] && forall i :: 0 <= i < |s| ==> '0' <= s[i] <= '9'
  }

  /** The decimal digits of `n`, without leading zeros. */
  function NatToString(n: nat): (s: string)
    ensures IsDigits(s)
    ensures |s| > 1 ==> s[0] != '0'
  {
    if n < 10 then [DigitChar(n)]
    else NatToString(n / 10) + [DigitChar(n % 10)]
  }

  /** `${i}` for an integer `i` (JavaScript writes a leading '-' for negatives). */
  function IntToString(i: int): (s: string)
    ensures s != []
    ensures '&' !in s && '\'' !in s
  {
    if i < 0 then "-" + NatToString(-i) else NatToString(i)
  }

  function ParseNat(s: string): nat
    requires IsDigits(s)
  {
    if |s| == 1 then DigitValue(s[0])
    else ParseNat(s[..|s| - 1]) * 10 + DigitValue(s[|s| - 1])
  }

  function ParseInt(s: string): int
    requires s != []
    requires s[0] == '-' ==> IsDigits(s[1..])
    requires s[0] != '-' ==> IsDigits(s)
  {
    if s[0] == '-' then -(ParseNat(s[1..]) as int) else ParseNat(s)
  }

  /** Reading the digits back gives the number: rendering loses nothing. */
  lemma {:induction false} ParseNatToString(n: nat)
    ensures ParseNat(NatToString(n)) == n
  {
    if n >= 10 {
      ParseNatToString(n / 10);
      var s := NatToString(n);
      assert s[..|s| - 1] == NatToString(n / 10);
    }
  }

  /** Integer rendering round-trips, so different values render differently. */
  lemma {:induction false} IntToStringRoundTrip(i: int)
    ensures var s := IntToString(i);
      (s[0] == '-' ==> IsDigits(s[1..])) && (s[0] != '-' ==> IsDigits(s)) && ParseInt(s) == i
  {
    var s := IntToString(i);
    if i < 0 {
      var digits := NatToString(-i);
      assert s == "-" + digits;
      assert s[0] == '-' && s[1..] == digits;
      ParseNatToString(-i);
    } else {
      var digits := NatToString(i);
      assert s == digits;
      assert s[0] != '-';
      ParseNatToString(i);
    }
  }
}
