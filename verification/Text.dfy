/** Strings as the server sees them: Unicode blanks, trimming, joining, and decimal numerals. */
module Text {
  datatype Option<+T> = None | Some(value: T)

  /** Unicode White_Space, the class Go's strings.TrimSpace removes. */
  predicate IsSpace(c: char) {
    || '\t' <= c <= '\r' || c == ' ' || c == '\U{0085}' || c == '\U{00A0}' || c == '\U{1680}'
    || '\U{2000}' <= c <= '\U{200A}' || c == '\U{2028}' || c == '\U{2029}' || c == '\U{202F}'
    || c == '\U{205F}' || c == '\U{3000}'
  }

  predicate AllSpace(s: string) {
    forall i | 0 <= i < |s| :: IsSpace(s[i])
  }

  function TrimLeft(s: string): string {
    if s != "" && IsSpace(s[0]) then TrimLeft(s[1..]) else s
  }

  function TrimRight(s: string): string {
    if s != "" && IsSpace(s[|s| - 1]) then TrimRight(s[..|s| - 1]) else s
  }

  function TrimSpace(s: string): string {
    TrimRight(TrimLeft(s))
  }

  lemma {:induction false} TrimLeftCuts(s: string)
    ensures var t := TrimLeft(s);
            |t| <= |s| && t == s[|s| - |t|..] && AllSpace(s[..|s| - |t|]) && (t != "" ==> !IsSpace(t[0]))
  {
    if s != "" && IsSpace(s[0]) {
      TrimLeftCuts(s[1..]);
      var t := TrimLeft(s);
      assert s[..|s| - |t|] == [s[0]] + s[1..][..|s| - 1 - |t|];
    }
  }

  lemma {:induction false} TrimRightCuts(s: string)
    ensures var t := TrimRight(s);
            |t| <= |s| && t == s[..|t|] && AllSpace(s[|t|..]) && (t != "" ==> !IsSpace(t[|t| - 1]))
  {
    if s != "" && IsSpace(s[|s| - 1]) {
      TrimRightCuts(s[..|s| - 1]);
      var t := TrimRight(s);
      assert s[|t|..] == s[..|s| - 1][|t|..] + [s[|s| - 1]];
    }
  }

  /** The code's strings.TrimSpace(s) == "" (BlankMeansTrimmedEmpty). */
  predicate Blank(s: string) {
    AllSpace(s)
  }

  /** A trimmed text neither starts nor ends with a blank. */
  lemma TrimmedEnds(s: string)
    ensures var t := TrimSpace(s); t != "" ==> !IsSpace(t[0]) && !IsSpace(t[|t| - 1])
  {
    var l := TrimLeft(s);
    var t := TrimRight(l);
    TrimLeftCuts(s);
    TrimRightCuts(l);
    if t != "" {
      assert t[0] == l[0];
    }
  }

  lemma BlankMeansTrimmedEmpty(s: string)
    ensures Blank(s) <==> TrimSpace(s) == ""
  {
    var l := TrimLeft(s);
    TrimLeftCuts(s);
    TrimRightCuts(l);
    if TrimSpace(s) == "" {
      assert s == s[..|s| - |l|] + l;
      assert l == l[|TrimRight(l)|..];
    } else {
      TrimmedEnds(s);
      assert l[0] == s[|s| - |l|];
    }
  }

  lemma TrimmedNotBlank(s: string)
    ensures Blank(TrimSpace(s)) <==> TrimSpace(s) == ""
  {
    TrimmedEnds(s);
  }

  /** A text whose first character is not a blank is trimmed on the right only. */
  lemma TrimRooted(s: string)
    requires s != "" && !IsSpace(s[0])
    ensures TrimSpace(s) == TrimRight(s) != ""
    ensures TrimSpace(s) == s <==> !IsSpace(s[|s| - 1])
    ensures TrimSpace(s)[0] == s[0]
  {
    TrimRightCuts(s);
    assert TrimLeft(s) == s && s[0..] == s;
  }

  function Join(parts: seq<string>, sep: string): string {
    if parts == [] then ""
    else if |parts| == 1 then parts[0]
    else parts[0] + sep + Join(parts[1..], sep)
  }

  function Concat(parts: seq<string>): string {
    if parts == [] then "" else parts[0] + Concat(parts[1..])
  }

  lemma ConcatAppend(a: seq<string>, b: seq<string>)
    ensures Concat(a + b) == Concat(a) + Concat(b)
  {
    if a == [] {
      assert a + b == b;
    } else {
      assert (a + b)[1..] == a[1..] + b;
      ConcatAppend(a[1..], b);
    }
  }

  /** Joining texts that are not blank gives a text that is not blank, unless there is none. */
  lemma JoinBlank(parts: seq<string>, sep: string)
    requires forall i | 0 <= i < |parts| :: !Blank(parts[i])
    ensures Blank(Join(parts, sep)) <==> parts == []
  {
    var j := Join(parts, sep);
    if parts != [] {
      var i :| 0 <= i < |parts[0]| && !IsSpace(parts[0][i]);
      assert j[i] == parts[0][i];
    }
  }

  const DIGITS := "0123456789"

  function Decimal(n: nat): (s: string)
    ensures s != ""
  {
    if n < 10 then [DIGITS[n]] else Decimal(n / 10) + [DIGITS[n % 10]]
  }

  function Numeral(n: int): string {
    if n < 0 then "-" + Decimal(-n) else Decimal(n)
  }

  function DigitValue(c: char): nat {
    if '0' <= c <= '9' then c as int - '0' as int else 0
  }

  function ReadDecimal(s: string): nat {
    if s == "" then 0 else 10 * ReadDecimal(s[..|s| - 1]) + DigitValue(s[|s| - 1])
  }

  lemma {:induction false} DecimalRoundTrip(n: nat)
    ensures ReadDecimal(Decimal(n)) == n
    ensures forall i | 0 <= i < |Decimal(n)| :: '0' <= Decimal(n)[i] <= '9'
  {
    if n < 10 {
      assert Decimal(n)[..0] == "";
    } else {
      DecimalRoundTrip(n / 10);
      var s := Decimal(n);
      assert s[..|s| - 1] == Decimal(n / 10);
    }
  }

  lemma DecimalInjective(m: nat, n: nat)
    ensures Decimal(m) == Decimal(n) <==> m == n
  {
    DecimalRoundTrip(m);
    DecimalRoundTrip(n);
  }

  lemma NumeralInjective(m: int, n: int)
    ensures Numeral(m) == Numeral(n) <==> m == n
  {
    DecimalRoundTrip(if m < 0 then -m else m);
    DecimalRoundTrip(if n < 0 then -n else n);
    if m < 0 && n < 0 {
      assert Decimal(-m) == Numeral(m)[1..] && Decimal(-n) == Numeral(n)[1..];
    } else if m < 0 {
      assert Numeral(m)[0] == '-' && Numeral(n)[0] != '-';
    } else if n < 0 {
      assert Numeral(n)[0] == '-' && Numeral(m)[0] != '-';
    }
  }

  /** Byte-wise string order (sort.Strings); for valid UTF-8 it is the order of code points. */
  predicate StringLeq(a: string, b: string) {
    a == "" || (b != "" && (a[0] < b[0] || (a[0] == b[0] && StringLeq(a[1..], b[1..]))))
  }

  lemma StringLeqTotal(a: string, b: string)
    ensures StringLeq(a, b) || StringLeq(b, a)
  {
  }

  lemma StringLeqTransitive(a: string, b: string, c: string)
    requires StringLeq(a, b) && StringLeq(b, c)
    ensures StringLeq(a, c)
  {
  }

  ghost predicate Sorted(xs: seq<string>) {
    forall i, j | 0 <= i < j < |xs| :: StringLeq(xs[i], xs[j])
  }

  function Insert(x: string, xs: seq<string>): seq<string> {
    if xs == [] then [x]
    else if StringLeq(x, xs[0]) then [x] + xs
    else [xs[0]] + Insert(x, xs[1..])
  }

  function SortStrings(xs: seq<string>): seq<string> {
    if xs == [] then [] else Insert(xs[0], SortStrings(xs[1..]))
  }

  lemma {:induction false} InsertPermutes(x: string, xs: seq<string>)
    ensures multiset(Insert(x, xs)) == multiset(xs) + multiset{x}
  {
    if xs != [] {
      assert xs == [xs[0]] + xs[1..];
      if !StringLeq(x, xs[0]) { InsertPermutes(x, xs[1..]); }
    }
  }

  lemma {:induction false} InsertKeepsSorted(x: string, xs: seq<string>)
    requires Sorted(xs)
    ensures Sorted(Insert(x, xs))
  {
    if xs != [] {
      StringLeqTotal(x, xs[0]);
      var r := Insert(x, xs);
      if StringLeq(x, xs[0]) {
        forall j | 1 <= j < |r| ensures StringLeq(x, r[j]) {
          if j > 1 { StringLeqTransitive(x, xs[0], xs[j - 1]); }
        }
      } else {
        InsertKeepsSorted(x, xs[1..]);
        InsertPermutes(x, xs[1..]);
        forall j | 1 <= j < |r| ensures StringLeq(xs[0], r[j]) {
          assert r[j] in multiset(Insert(x, xs[1..]));
          if r[j] != x {
            assert r[j] in xs[1..];
          }
        }
      }
    }
  }

  lemma {:induction false} SortStringsSorts(xs: seq<string>)
    ensures Sorted(SortStrings(xs)) && multiset(SortStrings(xs)) == multiset(xs)
  {
    if xs != [] {
      assert xs == [xs[0]] + xs[1..];
      SortStringsSorts(xs[1..]);
      InsertKeepsSorted(xs[0], SortStrings(xs[1..]));
      InsertPermutes(xs[0], SortStrings(xs[1..]));
    }
  }
}
