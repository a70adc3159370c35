/** Stand-ins for the Go standard-library string operations the core relies on:
    `strings.Join`, `strings.HasPrefix`, `strings.TrimRight(s, "\n")`,
    `strconv.FormatUint` / `%d`, and Go's `<` on strings. */
module Text {

  /** `strings.Join(ss, sep)`. */
  function Join(ss: seq<string>, sep: string): string
  {
    if |ss| == 0 then ""
    else if |ss| == 1 then ss[0]
    else ss[0] + sep + Join(ss[1..], sep)
  }

  /** Joining non-empty strings gives "" only for the empty list. */
  lemma {:induction false} JoinEmptyIff(ss: seq<string>, sep: string)
    requires forall i :: 0 <= i < |ss| ==> ss[i] != ""
    ensures Join(ss, sep) == "" <==> ss == []
  {
    if |ss| > 1 {
      assert Join(ss, sep) == ss[0] + sep + Join(ss[1..], sep);
      assert |Join(ss, sep)| >= |ss[0]| > 0;
    } else if |ss| == 1 {
      assert ss[0] != "";
    }
  }

  /** Join of a non-empty list ends with the last element. */
  lemma {:induction false} JoinSnoc(ss: seq<string>, s: string, sep: string)
    requires ss != []
    ensures Join(ss + [s], sep) == Join(ss, sep) + sep + s
  {
    if |ss| == 1 {
      assert (ss + [s])[1..] == [s];
    } else {
      assert (ss + [s])[1..] == ss[1..] + [s];
      JoinSnoc(ss[1..], s, sep);
    }
  }

  /** The "[a|b|c]" rendering shared by a flag's current value and an enum
      flag's list of options. */
  function Bracketed(ss: seq<string>): string
  {
    "[" + Join(ss, "|") + "]"
  }

  /** `strings.HasPrefix(s, p)`. */
  predicate HasPrefix(s: string, p: string)
  {
    |p| <= |s| && s[..|p|] == p
  }

  /** `strings.TrimRight(s, "\n")`: drops every trailing newline, and only those. */
  function TrimRightNewlines(s: string): (r: string)
    ensures |r| <= |s| && r == s[..|r|]
    ensures r == "" || r[|r| - 1] != '\n'
    ensures forall k :: |r| <= k < |s| ==> s[k] == '\n'
  {
    if |s| > 0 && s[|s| - 1] == '\n' then TrimRightNewlines(s[..|s| - 1]) else s
  }

  /** The decimal digit for 0 <= d < 10. */
  function Digit(d: nat): (c: char)
    requires d < 10
    ensures '0' <= c <= '9' && c as int - '0' as int == d
  {
    ('0' as int + d) as char
  }

  /** The number a string of decimal digits denotes, most significant first. */
  function DecimalValue(s: string): nat
    requires forall k :: 0 <= k < |s| ==> '0' <= s[k] <= '9'
  {
    if |s| == 0 then 0 else DecimalValue(s[..|s| - 1]) * 10 + (s[|s| - 1] as int - '0' as int)
  }

  /** `strconv.FormatUint(n, 10)`: the shortest decimal rendering of n, which
      denotes n and has no leading zero unless it is "0". */
  function NatToDecimal(n: nat): (r: string)
    ensures r != []
    ensures forall k :: 0 <= k < |r| ==> '0' <= r[k] <= '9'
    ensures DecimalValue(r) == n
    ensures r[0] == '0' ==> r == "0"
  {
    if n < 10 then [Digit(n)]
    else
      var init := NatToDecimal(n / 10);
      var r := init + [Digit(n % 10)];
      assert r[..|r| - 1] == init;
      r
  }

  /** `fmt.Sprintf("%d", i)` for a signed int. */
  function IntToDecimal(i: int): (r: string)
    ensures r != [] && r[|r| - 1] != '\n'
  {
    if i < 0 then "-" + NatToDecimal(-i) else NatToDecimal(i)
  }

  /** Go's `a < b` on strings: lexicographic order, a proper prefix first.
      (Go compares UTF-8 bytes; for valid UTF-8 that is code-point order.) */
  predicate Less(a: string, b: string)
  {
    if |b| == 0 then false
    else if |a| == 0 then true
    else if a[0] != b[0] then a[0] < b[0]
    else Less(a[1..], b[1..])
  }

  lemma {:induction false} LessIrreflexive(a: string)
    ensures !Less(a, a)
  {
    if |a| > 0 {
      LessIrreflexive(a[1..]);
    }
  }

  lemma {:induction false} LessTransitive(a: string, b: string, c: string)
    requires Less(a, b) && Less(b, c)
    ensures Less(a, c)
  {
    if |a| > 0 && a[0] == b[0] && b[0] == c[0] {
      LessTransitive(a[1..], b[1..], c[1..]);
    }
  }

  lemma {:induction false} LessTotal(a: string, b: string)
    ensures a == b || Less(a, b) || Less(b, a)
  {
    if |a| > 0 && |b| > 0 && a[0] == b[0] {
      LessTotal(a[1..], b[1..]);
      if a[1..] == b[1..] {
        assert a == [a[0]] + a[1..] && b == [b[0]] + b[1..];
      }
    }
  }

  /** "Not less than" is transitive: the relation a descending sort relies on. */
  lemma AtLeastTransitive(a: string, b: string, c: string)
    requires !Less(a, b) && !Less(b, c)
    ensures !Less(a, c)
  {
    LessTotal(a, b);
    if Less(a, c) {
      if a == b {
      } else {
        LessTransitive(b, a, c);
      }
    }
  }
}
