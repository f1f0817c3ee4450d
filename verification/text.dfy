/** Strings as Go's standard library treats them where the operator relies on it:
    decimal numbers (`strconv`), splitting at the first slash (`strings.SplitN`),
    and the order `sort.Strings` sorts by. */
module Text {

  datatype Option<+T> = None | Some(value: T)

  /* ---------- decimal numbers ---------- */

  predicate IsDigit(c: char) {
    '0' <= c <= '9'
  }

  function Digit(d: nat): (c: char)
    requires d < 10
  {
    ('0' as int + d) as char
  }

  function DigitValue(c: char): nat
    requires IsDigit(c)
  {
    c as int - '0' as int
  }

  predicate AllDigits(s: string) {
    forall i :: 0 <= i < |s| ==> IsDigit(s[i])
  }

  /** The number a run of decimal digits denotes, most significant digit first. */
  function DecimalValue(s: string): nat
    requires AllDigits(s)
  {
    if s == "" then 0 else 10 * DecimalValue(s[..|s| - 1]) + DigitValue(s[|s| - 1])
  }

  /** Decimal digits of n, without leading zeros. */
  function Digits(n: nat): string {
    if n < 10 then [Digit(n)] else Digits(n / 10) + [Digit(n % 10)]
  }

  function Itoa(n: int): string {
    if n < 0 then "-" + Digits(-n) else Digits(n)
  }

  const MIN_INT64 := -0x8000_0000_0000_0000
  const MAX_INT64 := 0x7FFF_FFFF_FFFF_FFFF

  predicate Signed(s: string) {
    s != "" && (s[0] == '-' || s[0] == '+')
  }

  function Magnitude(s: string): string {
    if Signed(s) then s[1..] else s
  }

  /** `strconv.Atoi`: an optional sign, at least one digit, nothing else, within int64. */
  function Atoi(s: string): Option<int> {
    var m := Magnitude(s);
    if m == "" || !AllDigits(m) then None
    else
      var v: int := DecimalValue(m);
      var n := if s[0] == '-' then -v else v;
      if MIN_INT64 <= n <= MAX_INT64 then Some(n) else None
  }

  function Zeros(z: nat): string {
    seq(z, i => '0')
  }

  lemma {:induction false} DigitsAreDigits(n: nat)
    ensures AllDigits(Digits(n)) && Digits(n) != ""
    ensures DecimalValue(Digits(n)) == n
  {
    if n < 10 {
      assert Digits(n)[..0] == "";
    } else {
      DigitsAreDigits(n / 10);
      var s := Digits(n);
      assert s[..|s| - 1] == Digits(n / 10);
      assert s[|s| - 1] == Digit(n % 10);
    }
  }

  lemma {:induction false} LeadingZeros(z: nat, s: string)
    requires AllDigits(s)
    ensures AllDigits(Zeros(z) + s) && DecimalValue(Zeros(z) + s) == DecimalValue(s)
  {
    var t := Zeros(z) + s;
    if s != "" {
      LeadingZeros(z, s[..|s| - 1]);
      assert t[..|t| - 1] == Zeros(z) + s[..|s| - 1];
    } else if z > 0 {
      LeadingZeros(z - 1, s);
      assert t[..|t| - 1] == Zeros(z - 1) + s;
    }
  }

  /** A run of digits is the canonical numeral of its value behind some zeros. */
  lemma {:induction false} DigitsCanonical(s: string) returns (z: nat)
    requires s != "" && AllDigits(s)
    ensures s == Zeros(z) + Digits(DecimalValue(s))
  {
    var t, c := s[..|s| - 1], s[|s| - 1];
    assert s == t + [c];
    if t == "" {
      z := 0;
      assert DecimalValue(s) == DigitValue(c);
    } else {
      z := DigitsCanonical(t);
      if DecimalValue(t) == 0 {
        assert t == Zeros(z) + "0" == Zeros(z + 1);
        z := z + 1;
      }
    }
  }

  /** s is an optional sign, some zeros and the canonical digits of n's magnitude. */
  ghost predicate Numeral(s: string, sign: string, z: nat, n: int) {
    && (sign == "" || sign == "+" || sign == "-")
    && (n < 0 ==> sign == "-") && (n > 0 ==> sign != "-")
    && s == sign + Zeros(z) + Digits(if n < 0 then -n else n)
  }

  lemma NumeralParses(s: string, sign: string, z: nat, n: int)
    requires Numeral(s, sign, z, n) && MIN_INT64 <= n <= MAX_INT64
    ensures Atoi(s) == Some(n)
  {
    var a := if n < 0 then -n else n;
    var m := Zeros(z) + Digits(a);
    assert AllDigits(m) && m != "" && DecimalValue(m) == a by {
      DigitsAreDigits(a);
      LeadingZeros(z, Digits(a));
    }
    assert s == sign + m;
    SignThenDigits(sign, m);
    assert sign != "" ==> s[0] == sign[0];
  }

  /** Printing any int64 and parsing it back is the identity. */
  lemma AtoiItoa(n: int)
    requires MIN_INT64 <= n <= MAX_INT64
    ensures Atoi(Itoa(n)) == Some(n)
  {
    var sign := if n < 0 then "-" else "";
    assert Itoa(n) == sign + Zeros(0) + Digits(if n < 0 then -n else n);
    NumeralParses(Itoa(n), sign, 0, n);
  }

  lemma SignThenDigits(sign: string, m: string)
    requires sign == "" || sign == "+" || sign == "-"
    requires AllDigits(m) && m != ""
    ensures Magnitude(sign + m) == m
    ensures (sign + m)[0] == '-' <==> sign == "-"
  {
    assert IsDigit(m[0]);
    assert sign != "" ==> (sign + m)[1..] == m;
    assert sign == "" ==> sign + m == m;
  }

  lemma Regroup(a: string, b: string, c: string)
    ensures a + (b + c) == a + b + c
  {
  }

  lemma ParsesNumeral(s: string, n: int) returns (sign: string, z: nat)
    requires Atoi(s) == Some(n)
    ensures Numeral(s, sign, z, n)
  {
    sign := if Signed(s) then s[..1] else "";
    var m := Magnitude(s);
    z := DigitsCanonical(m);
    assert s == sign + m;
    var v: int := DecimalValue(m);
    assert n == if sign == "-" then -v else v;
    Regroup(sign, Zeros(z), Digits(DecimalValue(m)));
  }

  /** `Atoi` yields n on exactly the numerals of n, for n within int64. */
  lemma AtoiAccepts(s: string, n: int)
    ensures Atoi(s) == Some(n) <==>
            MIN_INT64 <= n <= MAX_INT64 && exists sign, z :: Numeral(s, sign, z, n)
  {
    if Atoi(s) == Some(n) {
      var sign, z := ParsesNumeral(s, n);
    }
    forall sign, z | MIN_INT64 <= n <= MAX_INT64 && Numeral(s, sign, z, n) ensures Atoi(s) == Some(n) {
      NumeralParses(s, sign, z, n);
    }
  }

  /** Go's `int32(n)` conversion. */
  function Wrap32(n: int): int {
    (n + 0x8000_0000) % 0x1_0000_0000 - 0x8000_0000
  }

  /* ---------- splitting ---------- */

  /** `strings.SplitN(s, "/", 2)`: the two parts around the first slash, if there is one. */
  function SplitSlash(s: string): Option<(string, string)> {
    if s == "" then None
    else if s[0] == '/' then Some(("", s[1..]))
    else
      match SplitSlash(s[1..])
      case None => None
      case Some((a, b)) => Some(([s[0]] + a, b))
  }

  /** Splitting undoes joining for every name and every namespace without a slash,
      joining undoes splitting, and only strings without a slash do not split. */
  lemma {:induction false} SplitJoin(ns: string, name: string)
    requires '/' !in ns
    ensures SplitSlash(ns + "/" + name) == Some((ns, name))
  {
    var s := ns + "/" + name;
    if ns == "" {
      assert s[1..] == name;
    } else {
      SplitJoin(ns[1..], name);
      assert s[1..] == ns[1..] + "/" + name;
      assert [ns[0]] + ns[1..] == ns;
    }
  }

  lemma {:induction false} JoinSplit(s: string)
    ensures SplitSlash(s).None? <==> '/' !in s
    ensures SplitSlash(s).Some? ==>
              var (ns, name) := SplitSlash(s).value;
              '/' !in ns && s == ns + "/" + name
  {
    if s != "" && s[0] != '/' {
      JoinSplit(s[1..]);
      assert s == [s[0]] + s[1..];
    }
  }

  /* ---------- order ---------- */

  /** The order of Go strings: lexicographic. */
  predicate Less(a: string, b: string) {
    b != "" && (a == "" || a[0] < b[0] || (a[0] == b[0] && Less(a[1..], b[1..])))
  }

  lemma {:induction false} LessTrichotomy(a: string, b: string)
    ensures Less(a, b) || Less(b, a) || a == b
    ensures !(Less(a, b) && Less(b, a)) && !Less(a, a)
  {
    if a != "" {
      LessTrichotomy(a[1..], a[1..]);
    }
    if a != "" && b != "" {
      LessTrichotomy(a[1..], b[1..]);
      assert a == [a[0]] + a[1..] && b == [b[0]] + b[1..];
    }
  }

  lemma {:induction false} LessTransitive(a: string, b: string, c: string)
    requires Less(a, b) && Less(b, c)
    ensures Less(a, c)
  {
    if a != "" && a[0] == b[0] == c[0] {
      LessTransitive(a[1..], b[1..], c[1..]);
    }
  }

  ghost predicate StrictlySorted(ks: seq<string>) {
    forall i, j :: 0 <= i < j < |ks| ==> Less(ks[i], ks[j])
  }

  /** ks lists the keys s in strictly increasing order. */
  ghost predicate Lists(ks: seq<string>, s: set<string>) {
    StrictlySorted(ks) && forall k :: k in ks <==> k in s
  }

  /** A set of keys has only one strictly sorted listing. */
  lemma {:induction false} ListingUnique(a: seq<string>, b: seq<string>, s: set<string>)
    requires Lists(a, s) && Lists(b, s)
    ensures a == b
    decreases |a|
  {
    assert a != [] ==> a[0] in a;
    assert b != [] ==> b[0] in b;
    if a != [] && b != [] {
      assert a[0] in b && b[0] in a;
      LessTrichotomy(a[0], b[0]);
      assert a[0] == b[0];
      TailLists(a, s);
      TailLists(b, s);
      ListingUnique(a[1..], b[1..], s - {a[0]});
      assert a == [a[0]] + a[1..] && b == [b[0]] + b[1..];
    }
  }

  lemma TailLists(a: seq<string>, s: set<string>)
    requires a != [] && Lists(a, s)
    ensures Lists(a[1..], s - {a[0]})
  {
    forall k ensures k in a[1..] <==> k in s - {a[0]} {
      if k in a[1..] {
        var i :| 1 <= i < |a| && a[i] == k;
        assert k in a && Less(a[0], a[i]);
        LessTrichotomy(a[0], a[0]);
      }
    }
  }

  /** Insert one key into a sorted listing. */
  function Insert(k: string, ks: seq<string>): seq<string> {
    if ks == [] then [k]
    else if Less(k, ks[0]) then [k] + ks
    else [ks[0]] + Insert(k, ks[1..])
  }

  lemma {:induction false} InsertLists(k: string, ks: seq<string>, s: set<string>)
    requires Lists(ks, s) && k !in s
    ensures Lists(Insert(k, ks), s + {k})
    decreases |ks|
  {
    if ks == [] {
      LessTrichotomy(k, k);
    } else if Less(k, ks[0]) {
      forall j | 0 <= j < |ks| ensures Less(k, ks[j]) {
        if j > 0 { LessTransitive(k, ks[0], ks[j]); }
      }
    } else {
      TailLists(ks, s);
      InsertLists(k, ks[1..], s - {ks[0]});
      LessTrichotomy(k, ks[0]);
      assert ks[0] in s;
      var r := Insert(k, ks[1..]);
      assert Lists(r, s - {ks[0]} + {k});
      forall j | 0 <= j < |r| ensures Less(ks[0], r[j]) {
        assert r[j] in r;
        if r[j] != k {
          assert r[j] in s && r[j] in ks;
          var i :| 0 <= i < |ks| && ks[i] == r[j];
        }
      }
      forall x ensures x in [ks[0]] + r <==> x in s + {k} {
        assert x in r <==> x in s - {ks[0]} + {k};
      }
    }
  }

  /** `sort.Strings` on distinct keys. */
  function Sorted(ks: seq<string>): seq<string> {
    if ks == [] then [] else Insert(ks[|ks| - 1], Sorted(ks[..|ks| - 1]))
  }

  /** The last element of a concatenation is that of its second part. */
  lemma LastOfBoth<T>(a: seq<T>, b: seq<T>)
    requires b != []
    ensures b == b[..|b| - 1] + [b[|b| - 1]] && a + b == (a + b[..|b| - 1]) + [b[|b| - 1]]
  {
  }

  ghost predicate Distinct<T>(xs: seq<T>) {
    forall i, j :: 0 <= i < j < |xs| ==> xs[i] != xs[j]
  }

  lemma {:induction false} SortedLists(ks: seq<string>)
    requires Distinct(ks)
    ensures Lists(Sorted(ks), set k | k in ks)
  {
    if ks == [] {
    } else {
      var init, last := ks[..|ks| - 1], ks[|ks| - 1];
      SortedLists(init);
      assert last !in init;
      InsertLists(last, Sorted(init), set k | k in init);
      assert ks == init + [last];
      assert (set k | k in ks) == (set k | k in init) + {last};
    }
  }

  predicate IsLeast(k: string, s: set<string>) {
    k in s && forall j :: j in s ==> j == k || Less(k, j)
  }

  lemma {:induction false} LeastExists(s: set<string>)
    requires s != {}
    ensures exists k :: IsLeast(k, s)
    ensures forall k, j :: IsLeast(k, s) && IsLeast(j, s) ==> k == j
  {
    var x :| x in s;
    if s == {x} {
      assert IsLeast(x, s);
    } else {
      LeastExists(s - {x});
      var m :| IsLeast(m, s - {x});
      LessTrichotomy(x, m);
      forall j | j in s && j != x && Less(x, m) ensures Less(x, j) {
        if j != m { LessTransitive(x, m, j); }
      }
      assert IsLeast(x, s) || IsLeast(m, s);
    }
    forall k, j | IsLeast(k, s) && IsLeast(j, s) ensures k == j { LessTrichotomy(k, j); }
  }

  /** The keys in increasing order. */
  function SortedKeys(s: set<string>): seq<string> {
    if s == {} then []
    else
      LeastExists(s);
      var k :| IsLeast(k, s);
      [k] + SortedKeys(s - {k})
  }

  lemma {:induction false} SortedKeysLists(s: set<string>)
    ensures Lists(SortedKeys(s), s)
  {
    if s != {} {
      LeastExists(s);
      var k :| IsLeast(k, s);
      SortedKeysLists(s - {k});
      var r := SortedKeys(s - {k});
      forall j | 0 <= j < |r| ensures Less(k, r[j]) {
        assert r[j] in r;
      }
      forall x ensures x in [k] + r <==> x in s {
        assert x in r <==> x in s - {k};
      }
      assert SortedKeys(s) == [k] + r;
    }
  }
}
