/**
 * String helpers the pages rely on: ASCII case folding (the model of
 * `toLowerCase`/`toUpperCase`), substring search (`includes`), first-letter
 * capitalisation, first-occurrence replacement, decimal rendering of counts,
 * and joining/splitting on a separator character.
 */
module Text {

  /** ASCII lower-casing of one character. */
  function LowerChar(c: char): (r: char)
    ensures !('A' <= r <= 'Z')
    ensures 'a' <= c <= 'z' ==> r == c
  {
    if 'A' <= c <= 'Z' then (c as int + 32) as char else c
  }

  /** ASCII upper-casing of one character. */
  function UpperChar(c: char): (r: char)
    ensures !('a' <= r <= 'z')
    ensures 'A' <= c <= 'Z' ==> r == c
  {
    if 'a' <= c <= 'z' then (c as int - 32) as char else c
  }

  function Lower(s: string): (r: string)
    ensures |r| == |s|
    ensures forall i :: 0 <= i < |s| ==> r[i] == LowerChar(s[i])
  {
    seq(|s|, i requires 0 <= i < |s| => LowerChar(s[i]))
  }

  function Upper(s: string): (r: string)
    ensures |r| == |s|
    ensures forall i :: 0 <= i < |s| ==> r[i] == UpperChar(s[i])
  {
    seq(|s|, i requires 0 <= i < |s| => UpperChar(s[i]))
  }

  /** Folding twice is folding once. */
  lemma LowerIdempotent(s: string)
    ensures Lower(Lower(s)) == Lower(s)
  {
  }

  /** `t` occurs in `s` starting at index `i`. */
  ghost predicate OccursAt(s: string, t: string, i: nat) {
    i + |t| <= |s| && s[i..i + |t|] == t
  }

  /** `s.startsWith(prefix)`. */
  predicate StartsWith(s: string, prefix: string) {
    |prefix| <= |s| && s[..|prefix|] == prefix
  }

  /** `s.includes(t)`: scan the start positions of `s` from the left. */
  function Contains(s: string, t: string): bool
    decreases |s|
  {
    if |t| > |s| then false
    else if s[..|t|] == t then true
    else Contains(s[1..], t)
  }

  /** `Contains` holds exactly when `t` occurs somewhere in `s`. */
  lemma {:induction false} ContainsIffOccurs(s: string, t: string)
    ensures Contains(s, t) <==> exists i: nat :: OccursAt(s, t, i)
    decreases |s|
  {
    if |t| > |s| {
      forall i: nat ensures !OccursAt(s, t, i) { }
    } else if s[..|t|] == t {
      assert OccursAt(s, t, 0);
    } else {
      ContainsIffOccurs(s[1..], t);
      if i: nat :| OccursAt(s, t, i) {
        assert i != 0;
        assert s[1..][i - 1..i - 1 + |t|] == s[i..i + |t|];
        assert OccursAt(s[1..], t, i - 1);
      }
      if j: nat :| OccursAt(s[1..], t, j) {
        assert s[j + 1..j + 1 + |t|] == s[1..][j..j + |t|];
        assert OccursAt(s, t, j + 1);
      }
    }
  }

  /** The empty string is contained in every string. */
  lemma ContainsEmpty(s: string)
    ensures Contains(s, "")
  {
  }

  /** `field.toLowerCase().includes(term.toLowerCase())`. */
  predicate Includes(field: string, term: string) {
    Contains(Lower(field), Lower(term))
  }

  /** An empty search term matches every field. */
  lemma IncludesEmpty(field: string)
    ensures Includes(field, "")
  {
    assert Lower("") == "";
    ContainsEmpty(Lower(field));
  }

  /** The match ignores the case of the term. */
  lemma IncludesIgnoresTermCase(field: string, term: string)
    ensures Includes(field, Upper(term)) == Includes(field, term)
  {
    assert Lower(Upper(term)) == Lower(term);
  }

  /** `fields.some(f => f.toLowerCase().includes(term.toLowerCase()))`. */
  predicate AnyIncludes(fields: seq<string>, term: string) {
    fields != [] && (Includes(fields[0], term) || AnyIncludes(fields[1..], term))
  }

  /** Some field matches exactly when one of its entries does. */
  lemma {:induction false} AnyIncludesSpec(fields: seq<string>, term: string)
    ensures AnyIncludes(fields, term) <==> exists k :: 0 <= k < |fields| && Includes(fields[k], term)
  {
    if fields != [] {
      AnyIncludesSpec(fields[1..], term);
      if k :| 0 <= k < |fields| && Includes(fields[k], term) {
        if k > 0 {
          assert fields[1..][k - 1] == fields[k];
        }
      }
      if k :| 0 <= k < |fields[1..]| && Includes(fields[1..][k], term) {
        assert fields[k + 1] == fields[1..][k];
      }
    }
  }

  /** An empty term matches a list exactly when the list has an entry. */
  lemma AnyIncludesEmpty(fields: seq<string>)
    ensures AnyIncludes(fields, "") <==> fields != []
  {
    if fields != [] {
      IncludesEmpty(fields[0]);
    }
  }

  /** `s.charAt(0).toUpperCase() + s.slice(1)`. */
  function Capitalize(s: string): (r: string)
    ensures |r| == |s|
    ensures |s| > 0 ==> r[0] == UpperChar(s[0]) && r[1..] == s[1..]
  {
    if s == "" then "" else [UpperChar(s[0])] + s[1..]
  }

  /** Index of the first `c` in `s`, or `|s|` when there is none. */
  function IndexOf(s: string, c: char): (r: nat)
    ensures r <= |s|
    ensures r < |s| ==> s[r] == c
    ensures forall k :: 0 <= k < r ==> s[k] != c
  {
    if s == "" then 0 else if s[0] == c then 0 else 1 + IndexOf(s[1..], c)
  }

  /** `s.replace(from, to)` with a one-character pattern: only the first match changes. */
  function ReplaceFirst(s: string, from: char, to: char): (r: string)
    ensures |r| == |s|
    ensures forall k :: 0 <= k < |s| ==> r[k] == if k == IndexOf(s, from) then to else s[k]
  {
    if s == "" then ""
    else if s[0] == from then [to] + s[1..]
    else [s[0]] + ReplaceFirst(s[1..], from, to)
  }

  predicate IsDigit(c: char) {
    '0' <= c <= '9'
  }

  function DigitChar(d: nat): (c: char)
    requires d < 10
    ensures IsDigit(c)
  {
    ('0' as int + d) as char
  }

  /** `n.toString()` for a natural number. */
  function NatToString(n: nat): (r: string)
    ensures |r| >= 1
    ensures forall i :: 0 <= i < |r| ==> IsDigit(r[i])
  {
    if n < 10 then [DigitChar(n)] else NatToString(n / 10) + [DigitChar(n % 10)]
  }

  /** Reads a string of decimal digits back as a number. */
  function ParseNat(s: string): nat
    requires forall i :: 0 <= i < |s| ==> IsDigit(s[i])
  {
    if s == "" then 0
    else
      var last := s[|s| - 1];
      assert IsDigit(last);
      ParseNat(s[..|s| - 1]) * 10 + (last as int - '0' as int)
  }

  /** The decimal rendering denotes the number it renders. */
  lemma {:induction false} ParseNatToString(n: nat)
    ensures ParseNat(NatToString(n)) == n
  {
    if n >= 10 {
      ParseNatToString(n / 10);
      var s := NatToString(n);
      assert s[..|s| - 1] == NatToString(n / 10);
    }
  }

  /** Different counts are rendered differently. */
  lemma NatToStringInjective(a: nat, b: nat)
    requires NatToString(a) == NatToString(b)
    ensures a == b
  {
    ParseNatToString(a);
    ParseNatToString(b);
  }

  /** The plural suffix of "N item{s}": 's' unless the count is exactly 1. */
  function PluralSuffix(n: nat): (r: string)
    ensures r == "s" <==> n != 1
    ensures r == "" <==> n == 1
  {
    if n != 1 then "s" else ""
  }

  /** "N noun(s) found": the count in decimal, then the noun, plural unless the count is 1. */
  function FoundLabel(n: nat, noun: string): (r: string)
    ensures |r| > |NatToString(n)| && r[..|NatToString(n)|] == NatToString(n)
    ensures ParseNat(r[..|NatToString(n)|]) == n
    ensures n == 1 ==> r[|NatToString(n)|..] == " " + noun + " found"
    ensures n != 1 ==> r[|NatToString(n)|..] == " " + noun + "s found"
  {
    var digits := NatToString(n);
    var r := digits + " " + noun + PluralSuffix(n) + " found";
    assert r[..|digits|] == digits;
    assert r[|digits|..] == " " + noun + PluralSuffix(n) + " found";
    ParseNatToString(n);
    r
  }

  /** Number of occurrences of `c` in `s`. */
  function Occurrences(s: string, c: char): nat {
    if s == "" then 0 else (if s[0] == c then 1 else 0) + Occurrences(s[1..], c)
  }

  lemma {:induction false} OccurrencesAppend(a: string, b: string, c: char)
    ensures Occurrences(a + b, c) == Occurrences(a, c) + Occurrences(b, c)
  {
    if a != "" {
      assert (a + b)[0] == a[0] && (a + b)[1..] == a[1..] + b;
      OccurrencesAppend(a[1..], b, c);
    } else {
      assert a + b == b;
    }
  }

  lemma {:induction false} OccurrencesPositive(s: string, c: char)
    requires c in s
    ensures Occurrences(s, c) >= 1
  {
    if s[0] != c {
      assert c in s[1..];
      OccurrencesPositive(s[1..], c);
    }
  }

  /** `parts.join(sep)` */
  function Join(parts: seq<string>, sep: char): string {
    if |parts| == 0 then ""
    else if |parts| == 1 then parts[0]
    else parts[0] + [sep] + Join(parts[1..], sep)
  }

  /** `s.split(sep)`: the pieces between separators, always at least one. */
  function Split(s: string, sep: char): (r: seq<string>)
    ensures |r| >= 1
  {
    if s == "" then [""]
    else
      var rest := Split(s[1..], sep);
      if s[0] == sep then [""] + rest else [[s[0]] + rest[0]] + rest[1..]
  }

  /** Splitting yields one piece more than there are separators. */
  lemma {:induction false} SplitLength(s: string, sep: char)
    ensures |Split(s, sep)| == 1 + Occurrences(s, sep)
  {
    if s != "" {
      SplitLength(s[1..], sep);
    }
  }

  lemma {:induction false} SplitWithoutSeparator(p: string, sep: char)
    requires sep !in p
    ensures Split(p, sep) == [p]
  {
    if p != "" {
      assert sep !in p[1..];
      SplitWithoutSeparator(p[1..], sep);
      assert [p[0]] + p[1..] == p;
    }
  }

  lemma {:induction false} SplitAfterSeparator(a: string, b: string, sep: char)
    requires sep !in a
    ensures Split(a + [sep] + b, sep) == [a] + Split(b, sep)
  {
    if a == "" {
      assert a + [sep] + b == [sep] + b;
      assert ([sep] + b)[1..] == b;
    } else {
      assert sep !in a[1..];
      assert (a + [sep] + b)[1..] == a[1..] + [sep] + b;
      SplitAfterSeparator(a[1..], b, sep);
      assert [a[0]] + a[1..] == a;
    }
  }

  /** Splitting a join gives the parts back when no part contains the separator. */
  lemma {:induction false} SplitJoin(parts: seq<string>, sep: char)
    requires |parts| >= 1
    requires forall k :: 0 <= k < |parts| ==> sep !in parts[k]
    ensures Split(Join(parts, sep), sep) == parts
  {
    if |parts| == 1 {
      SplitWithoutSeparator(parts[0], sep);
    } else {
      SplitJoin(parts[1..], sep);
      SplitAfterSeparator(parts[0], Join(parts[1..], sep), sep);
      assert [parts[0]] + parts[1..] == parts;
    }
  }

  /** A join holds one separator between each two parts, plus those inside the parts. */
  lemma {:induction false} JoinOccurrencesAtLeast(parts: seq<string>, sep: char, k: nat)
    requires k < |parts|
    ensures Occurrences(Join(parts, sep), sep) >= |parts| - 1 + Occurrences(parts[k], sep)
  {
    if |parts| > 1 {
      var tail := Join(parts[1..], sep);
      OccurrencesAppend(parts[0] + [sep], tail, sep);
      OccurrencesAppend(parts[0], [sep], sep);
      assert Occurrences([sep], sep) == 1;
      if k == 0 {
        JoinOccurrencesAtLeast(parts[1..], sep, 0);
      } else {
        JoinOccurrencesAtLeast(parts[1..], sep, k - 1);
      }
    }
  }

  /** When some part contains the separator, splitting the join yields more pieces than there were parts. */
  lemma SplitJoinOverflows(parts: seq<string>, sep: char, k: nat)
    requires k < |parts| && sep in parts[k]
    ensures |Split(Join(parts, sep), sep)| > |parts|
  {
    SplitLength(Join(parts, sep), sep);
    JoinOccurrencesAtLeast(parts, sep, k);
    OccurrencesPositive(parts[k], sep);
  }
}
