/** The string operations the runner borrows from Go's standard library:
    the order and sort of sort.Strings, strings.Split and strings.Join on a
    one-character separator, and the decimal printing of fmt's %d. */
module Strings {

  // ---------- order and sorting ----------

  /** The order of sort.Strings. */
  predicate Less(a: string, b: string) {
    if b == [] then false
    else if a == [] then true
    else a[0] < b[0] || (a[0] == b[0] && Less(a[1..], b[1..]))
  }

  lemma {:induction false} LessTotal(a: string, b: string)
    ensures Less(a, b) || Less(b, a) || a == b
    ensures !(Less(a, b) && Less(b, a))
    ensures !Less(a, a)
  {
    if a != [] && b != [] {
      LessTotal(a[1..], b[1..]);
      LessTotal(a[1..], a[1..]);
      assert a == [a[0]] + a[1..] && b == [b[0]] + b[1..];
    } else if a != [] {
      LessTotal(a[1..], a[1..]);
    }
  }

  lemma {:induction false} LessTransitive(a: string, b: string, c: string)
    requires Less(a, b) && Less(b, c)
    ensures Less(a, c)
  {
    if a != [] && a[0] == b[0] == c[0] {
      LessTransitive(a[1..], b[1..], c[1..]);
    }
  }

  /** Sorted and without repetition. */
  ghost predicate StrictlySorted(s: seq<string>) {
    forall i, j :: 0 <= i < j < |s| ==> Less(s[i], s[j])
  }

  function Elements<T>(s: seq<T>): set<T> {
    set x | x in s
  }

  /** Puts x in its place in a strictly sorted list. */
  function Insert(x: string, s: seq<string>): (r: seq<string>)
    requires StrictlySorted(s) && x !in s
    ensures StrictlySorted(r)
    ensures forall y :: y in r <==> y == x || y in s
    ensures |r| == |s| + 1
  {
    if s == [] then [x]
    else if Less(x, s[0]) then
      (assert StrictlySorted([x] + s) by {
         forall j | 0 < j < |s| ensures Less(x, s[j]) { LessTransitive(x, s[0], s[j]); }
       }
       [x] + s)
    else
      var t := Insert(x, s[1..]);
      (assert StrictlySorted([s[0]] + t) by {
         LessTotal(x, s[0]);
         forall y | y in t ensures Less(s[0], y) { }
       }
       [s[0]] + t)
  }

  /** sort.Strings over the elements of a Go map or set, whose iteration order
      is arbitrary: the result does not depend on it (SortedUnique). */
  method SortedList(s: set<string>) returns (r: seq<string>)
    ensures StrictlySorted(r) && Elements(r) == s
  {
    r := [];
    var rest := s;
    while rest != {}
      invariant rest <= s && StrictlySorted(r) && Elements(r) == s - rest
      decreases rest
    {
      var x :| x in rest;
      assert x in r <==> x in Elements(r);
      var r' := Insert(x, r);
      assert Elements(r') == Elements(r) + {x};
      r, rest := r', rest - {x};
    }
  }

  lemma {:induction false} SortedUnique(a: seq<string>, b: seq<string>)
    requires StrictlySorted(a) && StrictlySorted(b) && Elements(a) == Elements(b)
    ensures a == b
  {
    assert forall x :: x in a <==> x in Elements(a);
    assert forall x :: x in b <==> x in Elements(b);
    assert (a == [] || a[0] in a) && (b == [] || b[0] in b);
    if a != [] && b != [] {
      assert a[0] in b && b[0] in a;
      LessTotal(a[0], b[0]);
      assert a[0] == b[0];
      forall x ensures x in a[1..] <==> x in b[1..] {
        LessTotal(a[0], a[0]);
        assert x in a <==> x in Elements(a);
        assert x in b <==> x in Elements(b);
      }
      assert Elements(a[1..]) == Elements(b[1..]);
      SortedUnique(a[1..], b[1..]);
      assert a == [a[0]] + a[1..] && b == [b[0]] + b[1..];
    }
  }

  lemma {:induction false} SortedExists(s: set<string>)
    ensures exists r :: StrictlySorted(r) && Elements(r) == s
  {
    if s == {} {
      assert StrictlySorted([]) && Elements<string>([]) == s;
    } else {
      var x :| x in s;
      SortedExists(s - {x});
      var t :| StrictlySorted(t) && Elements(t) == s - {x};
      assert x in t <==> x in Elements(t);
      var r := Insert(x, t);
      assert Elements(r) == Elements(t) + {x} == s;
    }
  }

  /** The sorted list of a set's elements. */
  ghost function Sorted(s: set<string>): (r: seq<string>)
    ensures StrictlySorted(r) && Elements(r) == s
  {
    SortedExists(s);
    var r :| StrictlySorted(r) && Elements(r) == s;
    r
  }

  // ---------- split and join ----------

  /** strings.Split(s, string(sep)). */
  function Split(s: string, sep: char): (r: seq<string>)
    ensures |r| >= 1
    ensures forall p :: p in r ==> sep !in p
  {
    if s == [] then [[]]
    else
      var t := Split(s[1..], sep);
      if s[0] == sep then [[]] + t else [[s[0]] + t[0]] + t[1..]
  }

  /** strings.Join(parts, string(sep)). */
  function Join(parts: seq<string>, sep: char): string {
    if parts == [] then []
    else if |parts| == 1 then parts[0]
    else parts[0] + [sep] + Join(parts[1..], sep)
  }

  lemma {:induction false} JoinSplit(s: string, sep: char)
    ensures Join(Split(s, sep), sep) == s
  {
    if s != [] {
      JoinSplit(s[1..], sep);
      var t := Split(s[1..], sep);
      if s[0] == sep {
        assert ([[]] + t)[1..] == t;
        assert s == [sep] + s[1..];
      } else {
        var u := [[s[0]] + t[0]] + t[1..];
        assert u[1..] == t[1..];
        assert s == [s[0]] + s[1..];
        if |t| == 1 {
        } else {
          assert Join(u, sep) == [s[0]] + (t[0] + [sep] + Join(t[1..], sep));
        }
      }
    }
  }

  /** A piece without separators is split off in front. */
  lemma {:induction false} SplitPiece(p: string, rest: string, sep: char)
    requires sep !in p
    ensures Split(p, sep) == [p]
    ensures Split(p + [sep] + rest, sep) == [p] + Split(rest, sep)
  {
    var s := p + [sep] + rest;
    if p == [] {
      assert s == [sep] + rest && s[1..] == rest;
    } else {
      assert s[1..] == p[1..] + [sep] + rest;
      SplitPiece(p[1..], rest, sep);
      assert [p[0]] + p[1..] == p;
      var t := Split(s[1..], sep);
      assert t == [p[1..]] + Split(rest, sep);
      assert t[1..] == Split(rest, sep);
      assert [p[0]] + t[0] == p;
    }
  }

  lemma {:induction false} SplitJoin(parts: seq<string>, sep: char)
    requires parts != [] && forall p :: p in parts ==> sep !in p
    ensures Split(Join(parts, sep), sep) == parts
  {
    if |parts| == 1 {
      SplitPiece(parts[0], [], sep);
      assert [parts[0]] == parts;
    } else {
      SplitJoin(parts[1..], sep);
      SplitPiece(parts[0], Join(parts[1..], sep), sep);
      assert [parts[0]] + parts[1..] == parts;
    }
  }

  /** The first piece goes up to the first separator, the others are those of the rest. */
  lemma {:induction false} SplitMeans(s: string, sep: char)
    ensures exists k :: 0 <= k <= |s| && sep !in s[..k] && Split(s, sep)[0] == s[..k]
                        && if k == |s| then |Split(s, sep)| == 1
                           else s[k] == sep && Split(s, sep)[1..] == Split(s[k + 1..], sep)
  {
    if s == [] || s[0] == sep {
      assert s[..0] == [] && (s != [] ==> s[0 + 1..] == s[1..]);
    } else {
      SplitMeans(s[1..], sep);
      var t := Split(s[1..], sep);
      var k :| 0 <= k <= |s[1..]| && sep !in s[1..][..k] && t[0] == s[1..][..k]
               && if k == |s[1..]| then |t| == 1 else s[1..][k] == sep && t[1..] == Split(s[1..][k + 1..], sep);
      assert s[..k + 1] == [s[0]] + s[1..][..k];
      if k < |s[1..]| { assert s[1..][k + 1..] == s[k + 2..]; }
    }
  }

  // ---------- decimal printing ----------

  const DIGITS: string := "0123456789"

  /** fmt.Sprintf("%d", n) for a non-negative n. */
  function Decimal(n: nat): (s: string)
    ensures |s| >= 1
  {
    if n < 10 then [DIGITS[n]] else Decimal(n / 10) + [DIGITS[n % 10]]
  }

  lemma DigitInjective(a: nat, b: nat)
    requires a < 10 && b < 10 && DIGITS[a] == DIGITS[b]
    ensures a == b
  {
  }

  /** Decimal printing is injective. */
  lemma {:induction false} DecimalInjective(m: nat, n: nat)
    requires Decimal(m) == Decimal(n)
    ensures m == n
  {
    var s := Decimal(m);
    if m < 10 && n < 10 {
      DigitInjective(m, n);
    } else if m >= 10 && n >= 10 {
      assert s[..|s| - 1] == Decimal(m / 10) == Decimal(n / 10);
      assert s[|s| - 1] == DIGITS[m % 10] == DIGITS[n % 10];
      DecimalInjective(m / 10, n / 10);
      DigitInjective(m % 10, n % 10);
    }
  }

  /** A number in decimal, with digits only and without a leading zero. */
  predicate Numeral(s: string) {
    && s != ""
    && (forall i :: 0 <= i < |s| ==> '0' <= s[i] <= '9')
    && (s[0] == '0' ==> |s| == 1)
  }

  /** What a numeral says. */
  function Read(s: string): nat
    requires forall i :: 0 <= i < |s| ==> '0' <= s[i] <= '9'
  {
    if s == "" then 0
    else 10 * Read(s[..|s| - 1]) + (s[|s| - 1] as int - '0' as int)
  }

  /** A string is the number in decimal. */
  predicate Says(s: string, n: nat) {
    Numeral(s) && Read(s) == n
  }

  lemma DigitSays(n: nat)
    requires n < 10
    ensures '0' <= DIGITS[n] <= '9' && DIGITS[n] as int - '0' as int == n
  {
  }

  /** Decimal printing reads back. */
  lemma {:induction false} DecimalSays(n: nat)
    ensures Says(Decimal(n), n) && (n > 0 ==> Decimal(n)[0] != '0')
  {
    var s := Decimal(n);
    DigitSays(n % 10);
    if n < 10 {
      assert s == [DIGITS[n]] && s[..0] == "";
      DigitSays(n);
    } else {
      DecimalSays(n / 10);
      assert s[..|s| - 1] == Decimal(n / 10);
    }
  }

  lemma DecimalAppend(n: nat, d: nat)
    requires n > 0 && d < 10
    ensures Decimal(10 * n + d) == Decimal(n) + Decimal(d)
  {
    assert (10 * n + d) / 10 == n && (10 * n + d) % 10 == d;
  }

  lemma DigitOf(c: char)
    requires '0' <= c <= '9'
    ensures Decimal(c as int - '0' as int) == [c]
  {
  }

  /** Only decimal printing gives a numeral. */
  lemma {:induction false} SaidOneWay(s: string)
    requires Numeral(s)
    ensures s == Decimal(Read(s))
    decreases |s|
  {
    hide Decimal;
    var m := |s| - 1;
    var front, d := s[..m], s[m] as int - '0' as int;
    assert s == front + [s[m]];
    DigitOf(s[m]);
    if m > 0 {
      assert front[0] == s[0];
      SaidOneWay(front);
      DigitOf('0');
      assert Read(front) > 0;
      hide Numeral, Read;
      DecimalAppend(Read(front), d);
    }
  }

  /** The order is that of the first characters that differ; a proper prefix comes first. */
  lemma {:induction false} LessMeans(a: string, b: string)
    ensures Less(a, b) <==> exists k :: 0 <= k <= |a| && k < |b| && a[..k] == b[..k] && (k == |a| || a[k] < b[k])
  {
    if a != [] && b != [] && a[0] == b[0] {
      LessMeans(a[1..], b[1..]);
      if Less(a[1..], b[1..]) {
        var k :| 0 <= k <= |a[1..]| && k < |b[1..]| && a[1..][..k] == b[1..][..k] && (k == |a[1..]| || a[1..][k] < b[1..][k]);
        assert a[..k + 1] == [a[0]] + a[1..][..k] && b[..k + 1] == [b[0]] + b[1..][..k];
      }
      if k :| 0 <= k <= |a| && k < |b| && a[..k] == b[..k] && (k == |a| || a[k] < b[k]) {
        assert k > 0;
        assert a[1..][..k - 1] == a[..k][1..] && b[1..][..k - 1] == b[..k][1..];
      }
    } else if b != [] && Less(a, b) {
      assert a[..0] == b[..0];
    }
  }
}
