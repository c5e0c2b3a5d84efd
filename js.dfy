/**
 * The slice of JavaScript semantics the frame builders rely on: the values a row
 * can hold, strict equality, property lookup on a row object, `JSON.stringify`
 * inside a template literal, string ordering for `Array.prototype.sort()`,
 * `String.prototype.trim`, `toLowerCase`/`includes`, UTF-16 code units,
 * ToInt32 and `Number.prototype.toString(radix)`.
 */
module Js {

  datatype Option<+T> = None | Some(value: T)

  /** A JavaScript value as it can appear in a row of the change feed. */
  datatype Value =
    | Undefined
    | Null
    | Bool(b: bool)
    | Num(n: int)                  // integral numbers only
    | Str(s: string)
    | Date(ref: nat, iso: string)  // a Date object: its identity and its ISO-8601 text

  /** `a === b`: primitives compare by value, objects (Date) by reference. */
  predicate StrictEquals(a: Value, b: Value) {
    match (a, b)
    case (Date(r1, _), Date(r2, _)) => r1 == r2
    case _ => a == b
  }

  /** `a || d` for an optional string: absent and `""` are falsy. */
  function Or(a: Option<string>, d: string): string {
    if a.Some? && a.value != "" then a.value else d
  }

  // ---------------------------------------------------------------------------
  // Row objects
  // ---------------------------------------------------------------------------

  /** One own property of a row object: its name and its value. */
  type Prop = (string, Value)

  predicate DistinctNames(props: seq<Prop>) {
    forall i, j :: 0 <= i < j < |props| ==> props[i].0 != props[j].0
  }

  /** A plain row object, its properties in `Object.keys` order (names are unique). */
  type Row = r: seq<Prop> | DistinctNames(r) witness []

  /** `Object.keys(row)`. */
  function Names(row: seq<Prop>): (ns: seq<string>)
    ensures |ns| == |row|
    ensures forall i :: 0 <= i < |row| ==> ns[i] == row[i].0
  {
    if row == [] then [] else [row[0].0] + Names(row[1..])
  }

  /** `row[name]`: the property's value, or `undefined` when the row has no such property. */
  function Get(row: seq<Prop>, name: string): Value {
    if row == [] then Undefined
    else if row[0].0 == name then row[0].1
    else Get(row[1..], name)
  }

  lemma {:induction false} GetAt(row: Row, i: nat)
    requires i < |row|
    ensures Get(row, row[i].0) == row[i].1
  {
    if i > 0 {
      assert row[0].0 != row[i].0;
      var tail: Row := row[1..];
      GetAt(tail, i - 1);
    }
  }

  lemma {:induction false} GetAbsent(row: seq<Prop>, name: string)
    requires forall i :: 0 <= i < |row| ==> row[i].0 != name
    ensures Get(row, name) == Undefined
  {
    if row != [] {
      GetAbsent(row[1..], name);
    }
  }

  // ---------------------------------------------------------------------------
  // Strings
  // ---------------------------------------------------------------------------

  /** `s.includes(part)`. */
  predicate Contains(s: string, part: string) {
    if |s| < |part| then false else s[..|part|] == part || Contains(s[1..], part)
  }

  /** Lower-cases the ASCII letters; every other character is kept. */
  function ToLower(s: string): (r: string)
    ensures |r| == |s|
  {
    seq(|s|, i requires 0 <= i < |s| => if 'A' <= s[i] <= 'Z' then (s[i] as int + 32) as char else s[i])
  }

  /** `parts.join(sep)`. */
  function Join(parts: seq<string>, sep: string): string {
    if parts == [] then ""
    else if |parts| == 1 then parts[0]
    else parts[0] + sep + Join(parts[1..], sep)
  }

  /** The WhiteSpace and LineTerminator characters of ECMAScript, which `trim` removes. */
  predicate IsWhitespace(c: char) {
    c == '\t' || c == '\n' || c == '\U{000B}' || c == '\U{000C}' || c == '\r' || c == ' '
    || c == '\U{00A0}' || c == '\U{1680}' || ('\U{2000}' <= c <= '\U{200A}')
    || c == '\U{2028}' || c == '\U{2029}' || c == '\U{202F}' || c == '\U{205F}'
    || c == '\U{3000}' || c == '\U{FEFF}'
  }

  function TrimStart(s: string): (r: string)
    ensures |r| <= |s| && r == s[|s| - |r|..]
    ensures r != [] ==> !IsWhitespace(r[0])
    ensures forall i :: 0 <= i < |s| - |r| ==> IsWhitespace(s[i])
  {
    if s != [] && IsWhitespace(s[0]) then TrimStart(s[1..]) else s
  }

  function TrimEnd(s: string): (r: string)
    ensures |r| <= |s| && r == s[..|r|]
    ensures r != [] ==> !IsWhitespace(r[|r| - 1])
    ensures forall i :: |r| <= i < |s| ==> IsWhitespace(s[i])
  {
    if s != [] && IsWhitespace(s[|s| - 1]) then TrimEnd(s[..|s| - 1]) else s
  }

  /** `s.trim()`. */
  function Trim(s: string): string {
    TrimEnd(TrimStart(s))
  }

  /** `s.trim()` is empty exactly when every character of `s` is whitespace. */
  lemma TrimEmptyIffBlank(s: string)
    ensures Trim(s) == "" <==> forall i :: 0 <= i < |s| ==> IsWhitespace(s[i])
  {
    var t := TrimStart(s);
    if Trim(s) == "" {
      forall i | 0 <= i < |s| ensures IsWhitespace(s[i]) {
        if i >= |s| - |t| {
          assert t[i - (|s| - |t|)] == s[i];
        }
      }
    } else {
      var k := |s| - |t|;
      assert t != [] && !IsWhitespace(t[0]) && t[0] == s[k];
    }
  }

  // ---------------------------------------------------------------------------
  // String order of `Array.prototype.sort()` and insertion sort
  // ---------------------------------------------------------------------------

  /** Lexicographic order on strings, character by character. */
  predicate Less(a: string, b: string) {
    if a == [] then b != []
    else if b == [] then false
    else if a[0] != b[0] then a[0] < b[0]
    else Less(a[1..], b[1..])
  }

  lemma {:induction false} LessIrreflexive(a: string)
    ensures !Less(a, a)
  {
    if a != [] {
      LessIrreflexive(a[1..]);
    }
  }

  lemma {:induction false} LessTransitive(a: string, b: string, c: string)
    requires Less(a, b) && Less(b, c)
    ensures Less(a, c)
  {
    if a != [] && b != [] && c != [] && a[0] == b[0] && b[0] == c[0] {
      LessTransitive(a[1..], b[1..], c[1..]);
    }
  }

  lemma {:induction false} LessTotal(a: string, b: string)
    requires a != b
    ensures Less(a, b) || Less(b, a)
  {
    if a != [] && b != [] && a[0] == b[0] {
      assert a == [a[0]] + a[1..] && b == [b[0]] + b[1..];
      LessTotal(a[1..], b[1..]);
    }
  }

  lemma LessAsymmetric(a: string, b: string)
    requires Less(a, b)
    ensures !Less(b, a)
  {
    if Less(b, a) {
      LessTransitive(a, b, a);
      LessIrreflexive(a);
    }
  }

  predicate Sorted(s: seq<string>) {
    forall i, j :: 0 <= i < j < |s| ==> Less(s[i], s[j])
  }

  predicate Distinct<T(==)>(s: seq<T>) {
    forall i, j :: 0 <= i < j < |s| ==> s[i] != s[j]
  }

  function Insert(x: string, s: seq<string>): (r: seq<string>)
    ensures multiset(r) == multiset(s) + multiset{x}
  {
    if s == [] then [x]
    else
      assert s == [s[0]] + s[1..];
      if Less(s[0], x) then [s[0]] + Insert(x, s[1..]) else [x] + s
  }

  /** The result of `names.sort()`. */
  function Sort(names: seq<string>): (r: seq<string>)
    ensures multiset(r) == multiset(names)
  {
    if names == [] then []
    else
      assert names == [names[0]] + names[1..];
      Insert(names[0], Sort(names[1..]))
  }

  lemma {:induction false} InsertSorted(x: string, s: seq<string>)
    requires Sorted(s) && x !in s
    ensures Sorted(Insert(x, s))
  {
    if s == [] {
    } else if Less(s[0], x) {
      InsertSorted(x, s[1..]);
      var r := Insert(x, s[1..]);
      assert multiset(r) == multiset(s[1..]) + multiset{x};
      forall k | 0 <= k < |r| ensures Less(s[0], r[k]) {
        assert r[k] in multiset(r);
        if r[k] != x {
          assert r[k] in multiset(s[1..]);
          var m :| 1 <= m < |s| && s[m] == r[k] by {
            assert r[k] in s[1..];
          }
        }
      }
    } else {
      LessTotal(s[0], x);
      forall k | 0 < k < |s| ensures Less(x, s[k]) {
        LessTransitive(x, s[0], s[k]);
      }
    }
  }

  lemma {:induction false} SortSorted(names: seq<string>)
    requires Distinct(names)
    ensures Sorted(Sort(names))
  {
    if names != [] {
      SortSorted(names[1..]);
      assert names[0] !in names[1..];
      assert names[0] !in multiset(Sort(names[1..]));
      InsertSorted(names[0], Sort(names[1..]));
    }
  }

  /** Two sorted sequences holding the same strings are equal. */
  lemma {:induction false} SortedUnique(a: seq<string>, b: seq<string>)
    requires Sorted(a) && Sorted(b)
    requires forall x :: x in a <==> x in b
    ensures a == b
  {
    if a != [] && b != [] {
      assert a[0] in b;
      assert b[0] in a;
      if a[0] != b[0] {
        var i :| 0 <= i < |b| && b[i] == a[0];
        var j :| 0 <= j < |a| && a[j] == b[0];
        LessAsymmetric(b[0], a[0]);
      }
      forall x ensures x in a[1..] <==> x in b[1..] {
        if x in a[1..] {
          var i :| 1 <= i < |a| && a[i] == x;
          LessIrreflexive(a[0]);
          assert x in b;
        }
        if x in b[1..] {
          var i :| 1 <= i < |b| && b[i] == x;
          LessIrreflexive(b[0]);
          assert x in a;
        }
      }
      SortedUnique(a[1..], b[1..]);
      assert a == [a[0]] + a[1..] && b == [b[0]] + b[1..];
    } else {
      HeadIn(a);
      HeadIn(b);
    }
  }

  // ---------------------------------------------------------------------------
  // Numbers
  // ---------------------------------------------------------------------------

  const TwoTo32: int := 0x1_0000_0000
  const TwoTo31: int := 0x8000_0000

  /** ECMAScript ToInt32: the signed 32-bit integer congruent to `x` modulo 2^32. */
  function ToInt32(x: int): (r: int)
    ensures -TwoTo31 <= r < TwoTo31
    ensures (r - x) % TwoTo32 == 0
  {
    var m := x % TwoTo32;
    if m >= TwoTo31 then m - TwoTo32 else m
  }

  lemma ToInt32Congruent(a: int, b: int)
    requires (a - b) % TwoTo32 == 0
    ensures ToInt32(a) == ToInt32(b)
  {
    var k := (a - b) / TwoTo32;
    assert a == b + TwoTo32 * k;
  }

  /** The digit character of `Number.prototype.toString(radix)`. */
  function DigitChar(d: nat): char
    requires d < 36
  {
    if d < 10 then ('0' as int + d) as char else ('a' as int + d - 10) as char
  }

  /** The inverse of DigitChar; -1 for a character that is no digit. */
  function DigitValue(c: char): int {
    if '0' <= c <= '9' then c as int - '0' as int
    else if 'a' <= c <= 'z' then c as int - 'a' as int + 10
    else -1
  }

  /** `n.toString(base)` for a non-negative integer `n`. */
  function Radix(n: nat, base: nat): (s: string)
    requires 2 <= base <= 36
    ensures |s| > 0
    ensures forall i :: 0 <= i < |s| ==> 0 <= DigitValue(s[i]) < base
    decreases n
  {
    if n < base then DigitRoundTrip(n); [DigitChar(n)]
    else
      var q, d := n / base, n % base;
      DivStep(n, base);
      DigitRoundTrip(d);
      Radix(q, base) + [DigitChar(d)]
  }

  lemma DigitRoundTrip(d: nat)
    requires d < 36
    ensures DigitValue(DigitChar(d)) == d
  {
  }

  lemma DivStep(n: nat, base: nat)
    requires 2 <= base <= n
    ensures 0 <= n % base < base && n / base < n && n == n / base * base + n % base
  {
  }

  /** Reads a string of digits in the given base. */
  function ParseRadix(s: string, base: nat): int {
    if s == [] then 0 else ParseRadix(s[..|s| - 1], base) * base + DigitValue(s[|s| - 1])
  }

  lemma {:induction false} RadixRoundTrip(n: nat, base: nat)
    requires 2 <= base <= 36
    ensures ParseRadix(Radix(n, base), base) == n
  {
    var s := Radix(n, base);
    if n < base {
      DigitRoundTrip(n);
    } else {
      DivStep(n, base);
      DigitRoundTrip(n % base);
      RadixRoundTrip(n / base, base);
      assert s[..|s| - 1] == Radix(n / base, base);
    }
  }

  lemma RadixInjective(m: nat, n: nat, base: nat)
    requires 2 <= base <= 36
    requires Radix(m, base) == Radix(n, base)
    ensures m == n
  {
    RadixRoundTrip(m, base);
    RadixRoundTrip(n, base);
  }

  /** A template literal's rendering of an integral number. */
  function IntToString(n: int): string {
    if n < 0 then "-" + Radix(-n, 10) else Radix(n, 10)
  }

  /** The text `${JSON.stringify(v)}` produces inside a template literal. */
  function Json(v: Value): string {
    match v
    case Undefined => "undefined"
    case Null => "null"
    case Bool(b) => if b then "true" else "false"
    case Num(n) => IntToString(n)
    case Str(s) => "\"" + s + "\""
    case Date(_, iso) => "\"" + iso + "\""
  }

  // ---------------------------------------------------------------------------
  // UTF-16
  // ---------------------------------------------------------------------------

  /** The UTF-16 code units of one character. */
  function Utf16(c: char): (u: seq<int>)
    ensures 1 <= |u| <= 2
    ensures forall k :: 0 <= k < |u| ==> 0 <= u[k] < 0x1_0000
  {
    var v := c as int;
    if v < 0x1_0000 then [v] else [0xD800 + (v - 0x1_0000) / 0x400, 0xDC00 + (v - 0x1_0000) % 0x400]
  }

  /** The values `s.charCodeAt(0)`, ..., `s.charCodeAt(s.length - 1)`. */
  function CodeUnits(s: string): (u: seq<int>)
    ensures |s| <= |u|
    ensures forall k :: 0 <= k < |u| ==> 0 <= u[k] < 0x1_0000
  {
    if s == [] then [] else CodeUnits(s[..|s| - 1]) + Utf16(s[|s| - 1])
  }

  // ---------------------------------------------------------------------------
  // Proof helpers: sequence identities the loops and inductions use. They model
  // nothing of the source; each is stated once here so that the solver does not
  // have to rediscover it in a large context.
  // ---------------------------------------------------------------------------

  lemma TakeAll<T>(s: seq<T>)
    ensures s[..|s|] == s
  {
  }

  lemma TakeStep<T>(s: seq<T>, i: nat)
    requires i < |s|
    ensures s[..i + 1][..i] == s[..i]
    ensures s[..i + 1] == s[..i] + [s[i]]
  {
  }

  /** In a sequence without repetitions, an element does not occur before its position. */
  lemma DistinctFresh<T>(s: seq<T>, i: nat)
    requires Distinct(s) && i < |s|
    ensures s[i] !in s[..i]
  {
  }

  lemma DropLast<T>(s: seq<T>, x: T)
    ensures (s + [x])[..|s|] == s
  {
  }

  lemma ConcatAssoc<T>(a: seq<T>, b: seq<T>, c: seq<T>)
    ensures a + b + c == a + (b + c)
  {
  }

  lemma ConsAt<T>(x: T, s: seq<T>, i: nat)
    requires 1 <= i <= |s|
    ensures ([x] + s)[i] == s[i - 1]
  {
  }

  lemma HeadIn(s: seq<string>)
    ensures s != [] ==> s[0] in s
  {
  }
}
