/** The string operations of Go's `strings` and `fmt` packages that the controllers use, on ASCII text. */
module Text {

  predicate HasPrefix(s: string, prefix: string) {
    prefix <= s
  }

  predicate HasSuffix(s: string, suffix: string) {
    |suffix| <= |s| && s[|s| - |suffix|..] == suffix
  }

  /** A suffix is what something ends in. */
  lemma SuffixIsEnding(s: string, suffix: string)
    ensures HasSuffix(s, suffix) <==> exists left: string :: s == left + suffix
  {
    if HasSuffix(s, suffix) {
      assert s == s[..|s| - |suffix|] + suffix;
    }
    if left: string :| s == left + suffix {
      assert s[|left|..] == suffix;
    }
  }

  function TrimSuffix(s: string, suffix: string): string {
    if HasSuffix(s, suffix) then s[..|s| - |suffix|] else s
  }

  predicate OccursAt(s: string, sub: string, i: int) {
    0 <= i <= |s| - |sub| && s[i..i + |sub|] == sub
  }

  predicate Contains(s: string, sub: string) {
    exists i | 0 <= i <= |s| :: OccursAt(s, sub, i)
  }

  /** A needle occurs exactly if the haystack is something, the needle and something else. */
  lemma ContainsIsInfix(s: string, sub: string)
    ensures Contains(s, sub) <==> exists left: string, right: string :: s == left + sub + right
  {
    if Contains(s, sub) {
      var i :| 0 <= i <= |s| && OccursAt(s, sub, i);
      assert s == s[..i] + sub + s[i + |sub|..];
    }
    if left: string, right: string :| s == left + sub + right {
      assert OccursAt(s, sub, |left|);
    }
  }

  function LowerChar(c: char): char {
    if 'A' <= c <= 'Z' then c + ('a' - 'A') else c
  }

  /** The upper-case letters, and they only, move down by the 32 places between the two alphabets of ASCII. */
  function ToLower(s: string): (r: string)
    ensures |r| == |s|
    ensures forall i | 0 <= i < |s| :: if 'A' <= s[i] <= 'Z' then r[i] as int == s[i] as int + 32 else r[i] == s[i]
    ensures forall i | 0 <= i < |r| :: !('A' <= r[i] <= 'Z')
  {
    seq(|s|, i requires 0 <= i < |s| => LowerChar(s[i]))
  }

  /** strings.Split on a one-character separator: one more part than there are separators. */
  function Split(s: string, sep: char): (parts: seq<string>)
    ensures parts != []
  {
    if s == "" then [""]
    else
      var rest := Split(s[1..], sep);
      if s[0] == sep then [""] + rest else [[s[0]] + rest[0]] + rest[1..]
  }

  function Join(parts: seq<string>, sep: char): string {
    if parts == [] then ""
    else if |parts| == 1 then parts[0]
    else parts[0] + [sep] + Join(parts[1..], sep)
  }

  /** A piece without separators, followed by a separator, is the first part of the split. */
  lemma {:induction false} SplitFirst(head: string, tail: string, sep: char)
    requires sep !in head
    ensures Split(head + [sep] + tail, sep) == [head] + Split(tail, sep)
  {
    var s := head + [sep] + tail;
    if head == "" {
      assert s[1..] == tail;
    } else {
      SplitFirst(head[1..], tail, sep);
      assert s[1..] == head[1..] + [sep] + tail;
      assert [s[0]] + head[1..] == head;
    }
  }

  lemma {:induction false} SplitWhole(s: string, sep: char)
    requires sep !in s
    ensures Split(s, sep) == [s]
  {
    if s != "" {
      SplitWhole(s[1..], sep);
      assert [s[0]] + s[1..] == s;
    }
  }

  lemma {:induction false} SplitCount(s: string, sep: char)
    ensures |Split(s, sep)| >= 2 <==> sep in s
  {
    if sep in s {
      if s[0] == sep {
      } else {
        SplitCount(s[1..], sep);
      }
    } else {
      SplitWhole(s, sep);
    }
  }

  lemma {:induction false} SplitConcat(left: string, right: string, sep: char)
    ensures Split(left + [sep] + right, sep) == Split(left, sep) + Split(right, sep)
  {
    var s := left + [sep] + right;
    if left == "" {
      assert s[1..] == right;
    } else {
      assert s[1..] == left[1..] + [sep] + right;
      SplitConcat(left[1..], right, sep);
    }
  }

  lemma {:induction false} SplitJoin(parts: seq<string>, sep: char)
    requires parts != [] && forall p | p in parts :: sep !in p
    ensures Split(Join(parts, sep), sep) == parts
  {
    if |parts| == 1 {
      SplitWhole(parts[0], sep);
    } else {
      SplitFirst(parts[0], Join(parts[1..], sep), sep);
      SplitJoin(parts[1..], sep);
    }
  }

  lemma {:induction false} JoinSplit(s: string, sep: char)
    ensures Join(Split(s, sep), sep) == s
  {
    if s != "" {
      JoinSplit(s[1..], sep);
      var rest := Split(s[1..], sep);
      if s[0] == sep {
        assert ([""] + rest)[1..] == rest;
        assert "" + [sep] + s[1..] == s;
      } else {
        var parts := [[s[0]] + rest[0]] + rest[1..];
        if |rest| > 1 {
          assert parts[1..] == rest[1..];
          assert [s[0]] + (rest[0] + [sep] + Join(rest[1..], sep)) == [s[0]] + rest[0] + [sep] + Join(rest[1..], sep);
        }
        assert [s[0]] + s[1..] == s;
      }
    }
  }

  lemma OccursInRight(left: string, right: string, sub: string, i: nat)
    requires i <= |right|
    ensures OccursAt(left + right, sub, |left| + i) <==> OccursAt(right, sub, i)
  {
    var s := left + right;
    if i + |sub| <= |right| {
      assert s[|left| + i..|left| + i + |sub|] == right[i..i + |sub|];
    }
  }

  /** A needle that avoids the last character of the left part lies wholly in one of the two parts. */
  lemma ContainsSplit(left: string, right: string, sub: string)
    requires left != "" && left[|left| - 1] !in sub && sub != ""
    ensures Contains(left + right, sub) <==> Contains(left, sub) || Contains(right, sub)
  {
    var s := left + right;
    if Contains(s, sub) {
      var i :| 0 <= i <= |s| && OccursAt(s, sub, i);
      if i < |left| {
        assert forall j | i <= j < i + |sub| :: s[j] in sub by {
          assert forall j | i <= j < i + |sub| :: s[j] == sub[j - i];
        }
        assert s[|left| - 1] == left[|left| - 1];
        assert left[i..i + |sub|] == s[i..i + |sub|];
        assert OccursAt(left, sub, i);
      } else {
        OccursInRight(left, right, sub, i - |left|);
      }
    }
    if Contains(left, sub) {
      var i :| 0 <= i <= |left| && OccursAt(left, sub, i);
      assert s[i..i + |sub|] == left[i..i + |sub|];
      assert OccursAt(s, sub, i);
    }
    if Contains(right, sub) {
      var i :| 0 <= i <= |right| && OccursAt(right, sub, i);
      OccursInRight(left, right, sub, i);
    }
  }

  /** The `%d` verb. */
  function Decimal(n: int): string
    decreases n < 0, if n < 0 then -n else n
  {
    if n < 0 then "-" + Decimal(-n)
    else if n < 10 then [Digit(n)]
    else Decimal(n / 10) + [Digit(n % 10)]
  }

  function Digit(d: int): (c: char)
    requires 0 <= d < 10
    ensures c != '-'
  {
    '0' + d as char
  }

  lemma {:induction false} DecimalDigits(n: nat)
    ensures Decimal(n) != "" && '-' !in Decimal(n)
  {
    if n >= 10 {
      DecimalDigits(n / 10);
    }
  }

  /** Only a leading minus sign can be a dash. */
  lemma DecimalDash(n: int)
    ensures Decimal(n) != ""
    ensures forall i | 0 < i < |Decimal(n)| :: Decimal(n)[i] != '-'
  {
    DecimalDigits(if n < 0 then -n else n);
  }

  /** Reading digits in base ten. */
  function Reading(digits: string): int {
    if digits == "" then 0
    else Reading(digits[..|digits| - 1]) * 10 + (digits[|digits| - 1] as int - '0' as int)
  }

  /** Digits without a leading zero. */
  predicate Numeral(digits: string) {
    && digits != "" && (forall i | 0 <= i < |digits| :: '0' <= digits[i] <= '9')
    && (digits[0] == '0' ==> |digits| == 1)
  }

  lemma {:induction false} DecimalOfNat(n: nat)
    ensures Numeral(Decimal(n)) && Reading(Decimal(n)) == n
    ensures n > 0 ==> Decimal(n)[0] != '0'
  {
    if n >= 10 {
      DecimalOfNat(n / 10);
      assert Decimal(n)[..|Decimal(n)| - 1] == Decimal(n / 10);
    }
  }

  /** What is printed is the number in base ten: it reads back, and only a negative number has a sign. */
  lemma DecimalReadsBack(n: int)
    ensures n >= 0 ==> Numeral(Decimal(n)) && Reading(Decimal(n)) == n
    ensures n < 0 ==> Decimal(n)[0] == '-' && Numeral(Decimal(n)[1..]) && Reading(Decimal(n)[1..]) == -n
  {
    DecimalOfNat(if n < 0 then -n else n);
    if n < 0 {
      assert Decimal(n)[1..] == Decimal(-n);
    }
  }

  lemma {:induction false} DecimalInjectiveNat(m: nat, n: nat)
    requires Decimal(m) == Decimal(n)
    ensures m == n
  {
    DecimalDigits(m / 10);
    DecimalDigits(n / 10);
    if m >= 10 && n >= 10 {
      var a, b := Decimal(m / 10), Decimal(n / 10);
      assert (a + [Digit(m % 10)])[..|a|] == a && (b + [Digit(n % 10)])[..|b|] == b;
      assert (a + [Digit(m % 10)])[|a|] == (b + [Digit(n % 10)])[|b|];
      DecimalInjectiveNat(m / 10, n / 10);
    } else if m < 10 && n < 10 {
      assert [Digit(m)][0] == [Digit(n)][0];
    } else {
      assert false;
    }
  }

  lemma DecimalInjective(m: int, n: int)
    requires Decimal(m) == Decimal(n)
    ensures m == n
  {
    if m < 0 { DecimalDigits(-m); } else { DecimalDigits(m); }
    if n < 0 { DecimalDigits(-n); } else { DecimalDigits(n); }
    if m < 0 && n < 0 {
      assert ("-" + Decimal(-m))[1..] == Decimal(-m) && ("-" + Decimal(-n))[1..] == Decimal(-n);
      DecimalInjectiveNat(-m, -n);
    } else if m >= 0 && n >= 0 {
      DecimalInjectiveNat(m, n);
    } else {
      assert false;
    }
  }
}
