/** Kubernetes version strings, their priority order, and sorting by it. */
module Versions {
  import opened Common

  const U32_LIMIT := 0x1_0000_0000

  datatype Version =
    | Stable(major: nat)
    | Beta(major: nat, minor: Option<nat>)
    | Alpha(major: nat, minor: Option<nat>)
    | Nonconformant(text: string)

  // ---------- Parsing ----------

  predicate IsDigit(c: char) {
    '0' <= c <= '9'
  }

  function DigitPrefix(s: string): (n: nat)
    ensures n <= |s|
  {
    if s == "" || !IsDigit(s[0]) then 0 else 1 + DigitPrefix(s[1..])
  }

  function DecimalValue(s: string): nat
    requires forall i :: 0 <= i < |s| ==> IsDigit(s[i])
  {
    if s == "" then 0
    else
      assert IsDigit(s[|s| - 1]);
      10 * DecimalValue(s[..|s| - 1]) + (s[|s| - 1] as int - '0' as int)
  }

  /** `u32::from_str`: an optional plus sign, at least one digit, no overflow. */
  function ParseU32(s: string): Option<nat> {
    var digits := if s != "" && s[0] == '+' then s[1..] else s;
    if digits == "" || exists i :: 0 <= i < |digits| && !IsDigit(digits[i]) then None
    else if DecimalValue(digits) >= U32_LIMIT then None
    else Some(DecimalValue(digits))
  }

  predicate HasPrefix(s: string, prefix: string) {
    prefix <= s
  }

  /** The minor number of a prerelease: absent, or what follows `alpha` or `beta`. */
  function ParseMinor(suffix: string): Option<Option<nat>> {
    if suffix == "" then Some(None)
    else
      var n := ParseU32(suffix);
      if n.None? then None else Some(n)
  }

  /** What follows the major number. */
  function ParseSuffix(major: nat, rest: string): Option<Version> {
    if rest == "" then Some(Stable(major))
    else if HasPrefix(rest, "alpha") then
      var minor := ParseMinor(rest[5..]);
      if minor.None? then None else Some(Alpha(major, minor.value))
    else if HasPrefix(rest, "beta") then
      var minor := ParseMinor(rest[4..]);
      if minor.None? then None else Some(Beta(major, minor.value))
    else None
  }

  function TryParse(v: string): Option<Version> {
    if !HasPrefix(v, "v") || |v| == 1 then None
    else
      var digits := DigitPrefix(v[1..]);
      var major := ParseU32(v[1..][..digits]);
      if major.None? then None else ParseSuffix(major.value, v[1..][digits..])
  }

  function Parse(v: string): Version {
    var parsed := TryParse(v);
    if parsed.Some? then parsed.value else Nonconformant(v)
  }

  // ---------- Parsing undoes printing ----------

  function Digits(n: nat): string {
    (if n < 10 then "" else Digits(n / 10)) + [('0' as int + n % 10) as char]
  }

  function PrintMinor(minor: Option<nat>): string {
    if minor.None? then "" else Digits(minor.value)
  }

  /** The version string as Kubernetes writes it. */
  function Print(v: Version): string {
    match v
    case Stable(major) => "v" + Digits(major)
    case Beta(major, minor) => "v" + (Digits(major) + ("beta" + PrintMinor(minor)))
    case Alpha(major, minor) => "v" + (Digits(major) + ("alpha" + PrintMinor(minor)))
    case Nonconformant(text) => text
  }

  /** The numbers fit the machine type, and what is called nonconformant is. */
  predicate Printable(v: Version) {
    match v
    case Stable(major) => major < U32_LIMIT
    case Beta(major, minor) => major < U32_LIMIT && (minor.Some? ==> minor.value < U32_LIMIT)
    case Alpha(major, minor) => major < U32_LIMIT && (minor.Some? ==> minor.value < U32_LIMIT)
    case Nonconformant(text) => TryParse(text).None?
  }

  lemma {:induction false} DigitsValue(n: nat)
    ensures Digits(n) != "" && forall i :: 0 <= i < |Digits(n)| ==> IsDigit(Digits(n)[i])
    ensures DecimalValue(Digits(n)) == n
  {
    var d := Digits(n);
    if n >= 10 {
      DigitsValue(n / 10);
    }
    assert d[..|d| - 1] == if n < 10 then "" else Digits(n / 10);
  }

  lemma ParseDigits(n: nat)
    requires n < U32_LIMIT
    ensures ParseU32(Digits(n)) == Some(n)
  {
    DigitsValue(n);
    assert IsDigit(Digits(n)[0]);
  }

  lemma {:induction false} DigitPrefixStops(digits: string, rest: string)
    requires forall i :: 0 <= i < |digits| ==> IsDigit(digits[i])
    requires rest == "" || !IsDigit(rest[0])
    ensures DigitPrefix(digits + rest) == |digits|
  {
    if digits == "" {
      assert digits + rest == rest;
    } else {
      DigitPrefixStops(digits[1..], rest);
      assert (digits + rest)[1..] == digits[1..] + rest;
    }
  }

  lemma SplitAfterDigits(digits: string, rest: string)
    requires digits != "" && forall i :: 0 <= i < |digits| ==> IsDigit(digits[i])
    requires rest == "" || !IsDigit(rest[0])
    ensures var major := ParseU32(digits);
            TryParse("v" + (digits + rest)) == if major.None? then None else ParseSuffix(major.value, rest)
  {
    var s := "v" + (digits + rest);
    assert s[1..] == digits + rest;
    DigitPrefixStops(digits, rest);
    assert s[1..][..|digits|] == digits && s[1..][|digits|..] == rest;
  }

  /** A printed version falls apart into its major number and the rest. */
  lemma PrintedParts(major: nat, rest: string)
    requires major < U32_LIMIT && (rest == "" || !IsDigit(rest[0]))
    ensures TryParse("v" + (Digits(major) + rest)) == ParseSuffix(major, rest)
  {
    DigitsValue(major);
    ParseDigits(major);
    SplitAfterDigits(Digits(major), rest);
  }

  lemma ParsePrintedMinor(minor: Option<nat>)
    requires minor.Some? ==> minor.value < U32_LIMIT
    ensures ParseMinor(PrintMinor(minor)) == Some(minor)
  {
    if minor.Some? {
      DigitsValue(minor.value);
      ParseDigits(minor.value);
    }
  }

  lemma ParsePrintedBeta(major: nat, minor: Option<nat>)
    requires minor.Some? ==> minor.value < U32_LIMIT
    ensures ParseSuffix(major, "beta" + PrintMinor(minor)) == Some(Beta(major, minor))
  {
    ParsePrintedMinor(minor);
    var rest := "beta" + PrintMinor(minor);
    assert rest[4..] == PrintMinor(minor);
    SuffixParses(rest, Beta(major, minor));
  }

  lemma ParsePrintedAlpha(major: nat, minor: Option<nat>)
    requires minor.Some? ==> minor.value < U32_LIMIT
    ensures ParseSuffix(major, "alpha" + PrintMinor(minor)) == Some(Alpha(major, minor))
  {
    ParsePrintedMinor(minor);
    var rest := "alpha" + PrintMinor(minor);
    assert rest[5..] == PrintMinor(minor);
    SuffixParses(rest, Alpha(major, minor));
  }

  /** Parsing a printed version gives it back. */
  lemma ParsePrinted(v: Version)
    requires Printable(v)
    ensures Parse(Print(v)) == v
  {
    match v
    case Stable(major) =>
      PrintedParts(major, "");
      assert Digits(major) + "" == Digits(major);
    case Beta(major, minor) =>
      PrintedParts(major, "beta" + PrintMinor(minor));
      ParsePrintedBeta(major, minor);
    case Alpha(major, minor) =>
      PrintedParts(major, "alpha" + PrintMinor(minor));
      ParsePrintedAlpha(major, minor);
    case Nonconformant(text) =>
  }

  /** What stands after the digits of the major number. */
  predicate SuffixSpells(rest: string, v: Version) {
    match v
    case Stable(_) => rest == ""
    case Alpha(_, minor) => "alpha" <= rest && ParseMinor(rest[5..]) == Some(minor)
    case Beta(_, minor) => "beta" <= rest && ParseMinor(rest[4..]) == Some(minor)
    case Nonconformant(_) => false
  }

  predicate AllDigits(s: string) {
    forall i :: 0 <= i < |s| ==> IsDigit(s[i])
  }

  /** The string is a `v`, digits that give the major number, and the suffix of the release. */
  predicate SpelledAs(s: string, digits: string, rest: string, v: Version) {
    && s == "v" + (digits + rest) && digits != "" && AllDigits(digits)
    && !v.Nonconformant? && ParseU32(digits) == Some(v.major) && SuffixSpells(rest, v)
  }

  ghost predicate Spells(s: string, v: Version) {
    exists digits: string, rest: string :: SpelledAs(s, digits, rest, v)
  }

  lemma ParsedIsSpelled(s: string, v: Version)
    requires TryParse(s) == Some(v)
    ensures Spells(s, v)
  {
    var n := DigitPrefix(s[1..]);
    var digits, rest := s[1..][..n], s[1..][n..];
    DigitPrefixDigits(s[1..]);
    assert s == "v" + (digits + rest);
    assert SpelledAs(s, digits, rest, v);
  }

  lemma SpelledIsParsed(s: string, digits: string, rest: string, v: Version)
    requires SpelledAs(s, digits, rest, v)
    ensures TryParse(s) == Some(v)
  {
    SuffixIsNoDigit(rest, v);
    SplitAfterDigits(digits, rest);
    SuffixParses(rest, v);
  }

  /** Exactly these strings are conformant, and exactly these versions they are read as. */
  lemma ParsesIff(s: string, v: Version)
    ensures TryParse(s) == Some(v) <==> Spells(s, v)
  {
    if TryParse(s) == Some(v) {
      ParsedIsSpelled(s, v);
    }
    if Spells(s, v) {
      var digits: string, rest: string :| SpelledAs(s, digits, rest, v);
      SpelledIsParsed(s, digits, rest, v);
    }
  }

  lemma SuffixIsNoDigit(rest: string, v: Version)
    requires SuffixSpells(rest, v)
    ensures rest == "" || !IsDigit(rest[0])
  {
    if "alpha" <= rest {
      assert rest[0] == "alpha"[0];
    } else if "beta" <= rest {
      assert rest[0] == "beta"[0];
    }
  }

  lemma SuffixParses(rest: string, v: Version)
    requires SuffixSpells(rest, v)
    ensures ParseSuffix(v.major, rest) == Some(v)
  {
    if "beta" <= rest {
      assert rest[0] == "beta"[0];
    }
  }

  lemma {:induction false} DigitPrefixDigits(s: string)
    ensures forall i :: 0 <= i < DigitPrefix(s) ==> IsDigit(s[i])
  {
    if s != "" && IsDigit(s[0]) {
      DigitPrefixDigits(s[1..]);
    }
  }

  // ---------- Priority ----------

  /** The sort key: compared field by field, the nonconformant text in reverse. */
  datatype Priority = Priority(stability: nat, major: nat, minor: Option<nat>, nonconformant: Option<string>)

  function PriorityOf(v: Version): Priority {
    match v
    case Stable(major) => Priority(3, major, None, None)
    case Beta(major, minor) => Priority(2, major, minor, None)
    case Alpha(major, minor) => Priority(1, major, minor, None)
    case Nonconformant(text) => Priority(0, 0, None, Some(text))
  }

  /** Lexicographic order on strings. */
  predicate StringLeq(a: string, b: string) {
    a == "" || (b != "" && (a[0] < b[0] || (a[0] == b[0] && StringLeq(a[1..], b[1..]))))
  }

  predicate MinorLeq(a: Option<nat>, b: Option<nat>) {
    a.None? || (b.Some? && a.value <= b.value)
  }

  predicate TextLeq(a: Option<string>, b: Option<string>) {
    a.None? || (b.Some? && StringLeq(b.value, a.value))
  }

  predicate Leq(a: Priority, b: Priority) {
    a.stability < b.stability || (a.stability == b.stability &&
    (a.major < b.major || (a.major == b.major &&
    (!MinorLeq(b.minor, a.minor) || (a.minor == b.minor &&
    TextLeq(a.nonconformant, b.nonconformant))))))
  }

  lemma {:induction false} StringLeqTotal(a: string, b: string)
    ensures StringLeq(a, b) || StringLeq(b, a)
    ensures StringLeq(a, b) && StringLeq(b, a) ==> a == b
    ensures StringLeq(a, a)
  {
    if a != "" && b != "" {
      StringLeqTotal(a[1..], b[1..]);
      assert a == [a[0]] + a[1..] && b == [b[0]] + b[1..];
    }
    StringLeqReflexive(a);
  }

  lemma {:induction false} StringLeqReflexive(a: string)
    ensures StringLeq(a, a)
  {
    if a != "" {
      StringLeqReflexive(a[1..]);
    }
  }

  lemma {:induction false} StringLeqTransitive(a: string, b: string, c: string)
    requires StringLeq(a, b) && StringLeq(b, c)
    ensures StringLeq(a, c)
  {
    if a != "" && a[0] == b[0] == c[0] {
      StringLeqTransitive(a[1..], b[1..], c[1..]);
    }
  }

  /** The priority is a total order on versions: any two compare, and only equal versions tie. */
  lemma PriorityIsTotal(v: Version, w: Version)
    ensures Leq(PriorityOf(v), PriorityOf(w)) || Leq(PriorityOf(w), PriorityOf(v))
    ensures Leq(PriorityOf(v), PriorityOf(w)) && Leq(PriorityOf(w), PriorityOf(v)) <==> v == w
  {
    if v.Nonconformant? && w.Nonconformant? {
      StringLeqTotal(v.text, w.text);
    }
    if v.Nonconformant? {
      StringLeqReflexive(v.text);
    }
  }

  lemma LeqTransitive(a: Priority, b: Priority, c: Priority)
    requires Leq(a, b) && Leq(b, c)
    ensures Leq(a, c)
  {
    if a.nonconformant.Some? && b.nonconformant.Some? && c.nonconformant.Some? {
      var x, y, z := a.nonconformant.value, b.nonconformant.value, c.nonconformant.value;
      if StringLeq(y, x) && StringLeq(z, y) {
        StringLeqTransitive(z, y, x);
      }
    }
  }

  lemma LeqTotal(a: Priority, b: Priority)
    ensures Leq(a, b) || Leq(b, a)
  {
    if a.nonconformant.Some? && b.nonconformant.Some? {
      StringLeqTotal(a.nonconformant.value, b.nonconformant.value);
    }
  }

  /** The documented order of the kinds of release, whatever the numbers. */
  lemma StabilityComesFirst(x: nat, y: nat, m: Option<nat>, z: nat, n: Option<nat>, text: string)
    ensures !Leq(PriorityOf(Stable(x)), PriorityOf(Beta(y, m)))
    ensures !Leq(PriorityOf(Beta(y, m)), PriorityOf(Alpha(z, n)))
    ensures !Leq(PriorityOf(Alpha(z, n)), PriorityOf(Nonconformant(text)))
  {
  }

  /** Strictly higher priority. */
  predicate Outranks(v: Version, w: Version) {
    Leq(PriorityOf(w), PriorityOf(v)) && !Leq(PriorityOf(v), PriorityOf(w))
  }

  /** Within one kind of release, a newer major outranks an older one, and then a newer minor or any over none. */
  lemma NewerComesFirst(x: nat, y: nat, m: Option<nat>, n: Option<nat>)
    ensures x > y ==>
              && Outranks(Stable(x), Stable(y))
              && Outranks(Beta(x, m), Beta(y, n)) && Outranks(Alpha(x, m), Alpha(y, n))
    ensures m.Some? && (n.None? || m.value > n.value) ==>
              Outranks(Beta(x, m), Beta(x, n)) && Outranks(Alpha(x, m), Alpha(x, n))
  {
  }

  /** Texts that are not versions go alphabetically: the one that comes first outranks the other. */
  lemma TextsGoAlphabetically(a: string, b: string)
    ensures Outranks(Nonconformant(a), Nonconformant(b)) <==> ComesBefore(a, b)
  {
    StringLeqTotal(a, b);
    StringLeqReflexive(a);
    ComesBeforeIff(a, b);
  }

  /** `a` is a proper beginning of `b`, or has the smaller character where they first differ. */
  ghost predicate ComesBefore(a: string, b: string) {
    exists i :: 0 <= i <= |a| && DiffersAt(a, b, i)
  }

  predicate DiffersAt(a: string, b: string, i: nat)
    requires i <= |a|
  {
    i < |b| && a[..i] == b[..i] && (i == |a| || a[i] < b[i])
  }

  lemma {:induction false} ComesBeforeIff(a: string, b: string)
    ensures ComesBefore(a, b) <==> StringLeq(a, b) && a != b
  {
    if a == "" || b == "" || a[0] != b[0] {
      assert 0 < |b| ==> (DiffersAt(a, b, 0) <==> a == "" || a[0] < b[0]);
      forall i | 0 < i <= |a| ensures !DiffersAt(a, b, i) {
        if i < |b| {
          assert a[..i][0] == a[0] && b[..i][0] == b[0];
        }
      }
    } else {
      ComesBeforeIff(a[1..], b[1..]);
      assert a == [a[0]] + a[1..] && b == [b[0]] + b[1..];
      forall i | 0 < i <= |a| ensures DiffersAt(a, b, i) <==> DiffersAt(a[1..], b[1..], i - 1) {
        assert a[..i] == [a[0]] + a[1..][..i - 1];
        if i < |b| {
          assert b[..i] == [b[0]] + b[1..][..i - 1];
        }
      }
      if ComesBefore(a, b) {
        var i :| 0 <= i <= |a| && DiffersAt(a, b, i);
        assert i > 0 && DiffersAt(a[1..], b[1..], i - 1);
      }
      if ComesBefore(a[1..], b[1..]) {
        var i :| 0 <= i <= |a[1..]| && DiffersAt(a[1..], b[1..], i);
        assert DiffersAt(a, b, i + 1);
      }
    }
  }

  // ---------- Sorting by descending priority ----------

  function Insert<T>(x: T, sorted: seq<T>, key: T -> Priority): seq<T> {
    if sorted == [] || Leq(key(sorted[0]), key(x)) then [x] + sorted
    else [sorted[0]] + Insert(x, sorted[1..], key)
  }

  /** A stable sort, highest priority first. */
  function Sort<T>(s: seq<T>, key: T -> Priority): seq<T> {
    if s == [] then [] else Insert(s[0], Sort(s[1..], key), key)
  }

  ghost predicate Descending<T>(s: seq<T>, key: T -> Priority) {
    forall i, j :: 0 <= i < j < |s| ==> Leq(key(s[j]), key(s[i]))
  }

  lemma {:induction false} InsertSorts<T>(x: T, sorted: seq<T>, key: T -> Priority)
    requires Descending(sorted, key)
    ensures Descending(Insert(x, sorted, key), key)
    ensures multiset(Insert(x, sorted, key)) == multiset(sorted) + multiset{x}
  {
    if sorted == [] {
    } else if Leq(key(sorted[0]), key(x)) {
      forall j | 0 <= j < |sorted| ensures Leq(key(sorted[j]), key(x)) {
        if j > 0 {
          LeqTransitive(key(sorted[j]), key(sorted[0]), key(x));
        }
      }
    } else {
      var rest := sorted[1..];
      InsertSorts(x, rest, key);
      LeqTotal(key(sorted[0]), key(x));
      var r := Insert(x, rest, key);
      forall j | 0 <= j < |r| ensures Leq(key(r[j]), key(sorted[0])) {
        assert r[j] in multiset(r);
        if r[j] != x {
          assert r[j] in multiset(rest);
          assert r[j] in rest;
        }
      }
      assert sorted == [sorted[0]] + rest;
    }
  }

  /** Sorting rearranges the elements in order of descending priority. */
  lemma {:induction false} SortSorts<T>(s: seq<T>, key: T -> Priority)
    ensures Descending(Sort(s, key), key)
    ensures multiset(Sort(s, key)) == multiset(s)
    ensures |Sort(s, key)| == |s|
  {
    if s != [] {
      SortSorts(s[1..], key);
      InsertSorts(s[0], Sort(s[1..], key), key);
      assert s == [s[0]] + s[1..];
    }
    assert |multiset(Sort(s, key))| == |multiset(s)|;
  }

  /** The elements of one priority, in order. */
  function Level<T>(s: seq<T>, key: T -> Priority, p: Priority): seq<T> {
    if s == [] then [] else (if key(s[0]) == p then [s[0]] else []) + Level(s[1..], key, p)
  }

  lemma {:induction false} InsertKeepsLevels<T>(x: T, sorted: seq<T>, key: T -> Priority, p: Priority)
    ensures Level(Insert(x, sorted, key), key, p) == Level([x] + sorted, key, p)
  {
    if sorted != [] && !Leq(key(sorted[0]), key(x)) {
      var rest := sorted[1..];
      InsertKeepsLevels(x, rest, key, p);
      var r := Insert(x, rest, key);
      assert ([sorted[0]] + r)[1..] == r;
      assert ([x] + rest)[1..] == rest && ([x] + sorted)[1..] == sorted;
      LeqReflexive(key(x));
      assert key(sorted[0]) != key(x);
    }
  }

  lemma LeqReflexive(p: Priority)
    ensures Leq(p, p)
  {
    if p.nonconformant.Some? {
      StringLeqReflexive(p.nonconformant.value);
    }
  }

  /** The sort is stable: elements of equal priority keep their order. */
  lemma {:induction false} SortIsStable<T>(s: seq<T>, key: T -> Priority, p: Priority)
    ensures Level(Sort(s, key), key, p) == Level(s, key, p)
  {
    if s != [] {
      var sorted := Sort(s[1..], key);
      SortIsStable(s[1..], key, p);
      InsertKeepsLevels(s[0], sorted, key, p);
      assert ([s[0]] + sorted)[1..] == sorted;
    }
  }
}
