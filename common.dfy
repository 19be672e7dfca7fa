/** Values and string helpers shared by every part of the ticket system model. */
module Common {

  /** A value that may be absent: a JSON field left `undefined`, a nullable column, a failed lookup. */
  datatype Option<+T> = None | Some(value: T) {
    /** The value, or `default` when absent (`x !== undefined ? x : default`). */
    function GetOr(default: T): T {
      match this
      case Some(v) => v
      case None => default
    }
  }

  /** JavaScript truthiness of an optional string: `undefined` and `''` are falsy. */
  predicate Truthy(s: Option<string>) {
    s.Some? && s.value != ""
  }

  /** `s || d` for an optional string. */
  function OrElse(s: Option<string>, d: string): (r: string)
    ensures Truthy(s) ==> r == s.value
    ensures !Truthy(s) ==> r == d
  {
    if Truthy(s) then s.value else d
  }

  // ---------------------------------------------------------------- digits

  /** The `\d` class of a JavaScript regular expression: ASCII digits only. */
  predicate IsDigit(c: char) {
    '0' <= c <= '9'
  }

  predicate AllDigits(s: string) {
    forall i :: 0 <= i < |s| ==> IsDigit(s[i])
  }

  function DigitChar(d: nat): (c: char)
    requires d < 10
    ensures IsDigit(c)
  {
    ('0' as int + d) as char
  }

  function DigitValue(c: char): (d: nat)
    requires IsDigit(c)
    ensures d < 10
  {
    c as int - '0' as int
  }

  /** `String(n)` for a natural number: its decimal digits, without leading zeros. */
  function Decimal(n: nat): (s: string)
    ensures 1 <= |s| && AllDigits(s)
    ensures n < 10 <==> |s| == 1
    decreases n
  {
    if n < 10 then [DigitChar(n)] else Decimal(n / 10) + [DigitChar(n % 10)]
  }

  /** The number a digit string denotes, most significant digit first. */
  function ValueOf(s: string): nat
    requires AllDigits(s)
  {
    if s == [] then 0 else ValueOf(s[..|s| - 1]) * 10 + DigitValue(s[|s| - 1])
  }

  lemma {:induction false} DecimalValue(n: nat)
    ensures ValueOf(Decimal(n)) == n
    decreases n
  {
    if n >= 10 {
      DecimalValue(n / 10);
      var s := Decimal(n);
      assert s[..|s| - 1] == Decimal(n / 10);
    }
  }

  /** Leading zeros do not change the value of a digit string. */
  lemma {:induction false} LeadingZeroValue(s: string)
    requires AllDigits(s)
    ensures AllDigits("0" + s) && ValueOf("0" + s) == ValueOf(s)
    decreases |s|
  {
    if s != [] {
      var t := "0" + s;
      assert t[..|t| - 1] == "0" + s[..|s| - 1];
      LeadingZeroValue(s[..|s| - 1]);
    }
  }

  /** `s.padStart(width, c)`: `c` repeated in front of `s` up to `width`; a longer `s` is kept whole. */
  function PadStart(s: string, width: nat, c: char): (r: string)
    ensures |r| == if |s| >= width then |s| else width
    ensures r[|r| - |s|..] == s
    ensures forall i :: 0 <= i < |r| - |s| ==> r[i] == c
    decreases width - |s|
  {
    if |s| >= width then s else PadStart([c] + s, width, c)
  }

  lemma {:induction false} ZeroPaddedValue(s: string, width: nat)
    requires AllDigits(s)
    ensures AllDigits(PadStart(s, width, '0')) && ValueOf(PadStart(s, width, '0')) == ValueOf(s)
    decreases width - |s|
  {
    if |s| < width {
      LeadingZeroValue(s);
      ZeroPaddedValue("0" + s, width);
    }
  }

  // ----------------------------------------------------------- string order

  /** Lexicographic order on code points, the order of `orderBy: 'asc'` on a text column. */
  predicate StrLe(a: string, b: string)
    decreases |a|
  {
    a == [] || (b != [] && (a[0] < b[0] || (a[0] == b[0] && StrLe(a[1..], b[1..]))))
  }

  lemma {:induction false} StrLeTotal(a: string, b: string)
    ensures StrLe(a, b) || StrLe(b, a)
    decreases |a|
  {
    if a != [] && b != [] && a[0] == b[0] {
      StrLeTotal(a[1..], b[1..]);
    }
  }

  // ------------------------------------------------------------ keyed rows

  /** No two rows share a key (a primary key or a unique column). */
  predicate UniqueKeys<T>(s: seq<T>, key: T -> string) {
    forall i, j :: 0 <= i < j < |s| ==> key(s[i]) != key(s[j])
  }

  /** The keys of the rows, in row order. */
  function Keys<T>(s: seq<T>, key: T -> string): (ks: seq<string>)
    ensures |ks| == |s|
    ensures forall i :: 0 <= i < |s| ==> ks[i] == key(s[i])
  {
    if s == [] then [] else Keys(s[..|s| - 1], key) + [key(s[|s| - 1])]
  }

  /** `findUnique`: the position of the first row with key `k`, if any. */
  function IndexOf<T>(s: seq<T>, key: T -> string, k: string): (r: Option<nat>)
    ensures r.Some? ==> r.value < |s| && key(s[r.value]) == k
    ensures r.Some? ==> forall i :: 0 <= i < r.value ==> key(s[i]) != k
    ensures r.None? <==> k !in Keys(s, key)
  {
    if s == [] then None
    else if key(s[0]) == k then Some(0)
    else match IndexOf(s[1..], key, k)
      case None => None
      case Some(i) => Some(i + 1)
  }

  /** With unique keys a row is found exactly at its own position. */
  lemma UniqueIndex<T>(s: seq<T>, key: T -> string, i: nat)
    requires UniqueKeys(s, key) && i < |s|
    ensures IndexOf(s, key, key(s[i])) == Some(i)
  {
  }

  /** Appending a row adds its key at the end; the keys stay unique when it is new. */
  lemma KeysAppend<T>(s: seq<T>, x: T, key: T -> string)
    ensures Keys(s + [x], key) == Keys(s, key) + [key(x)]
    ensures UniqueKeys(s + [x], key) <==> UniqueKeys(s, key) && key(x) !in Keys(s, key)
  {
    var t := s + [x];
    assert Keys(t, key) == Keys(s, key) + [key(x)];
    if UniqueKeys(s, key) && key(x) !in Keys(s, key) {
      forall i, j | 0 <= i < j < |t| ensures key(t[i]) != key(t[j]) {
        if j == |s| {
          assert key(t[i]) == Keys(s, key)[i];
        }
      }
    }
  }

  /** Rewriting a row without touching its key keeps the keys. */
  lemma KeysUpdate<T>(s: seq<T>, i: nat, x: T, key: T -> string)
    requires i < |s| && key(x) == key(s[i])
    ensures Keys(s[i := x], key) == Keys(s, key)
    ensures UniqueKeys(s, key) ==> UniqueKeys(s[i := x], key)
  {
  }
}
