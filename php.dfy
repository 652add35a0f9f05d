/** The slice of PHP's value model that the plugin relies on: dynamically
    typed values, ordered arrays with int or string keys, truthiness, the
    string predicates it calls, and is_numeric/intval on decimal text. */
module Php {
  import opened Wrappers

  datatype Key = IntKey(i: int) | StrKey(s: string)

  /** A PHP value. Arrays keep their insertion order, as PHP arrays do. */
  datatype Value =
    | Null
    | Bool(b: bool)
    | Int(i: int)
    | Str(s: string)
    | Arr(entries: seq<Entry>)

  datatype Entry = Entry(key: Key, val: Value)

  /** What the modelled code can throw. Each is fatal for the request it happens in. */
  datatype Fault =
    | UnknownOption(name: string)   // Settings::get, id never registered
    | InputTypeNotSanitized         // Settings::sanitize_field, unknown field type
    | InvalidIpAddress              // anonymize_ip_address fed a non-address (TypeError in unpack)
    | UndefinedGracePeriod          // count() of a $graceperiod no branch assigned (TypeError)
    | NotAnArray                    // count(), [] or [k] = on a stored non-array
    | NotABool                      // a bool return type given another value
    | NotAnInt                      // arithmetic on a duration that is not an int

  /** PHP's empty(): the falsy values. */
  predicate Empty(v: Value) {
    match v
    case Null => true
    case Bool(b) => !b
    case Int(i) => i == 0
    case Str(s) => s == "" || s == "0"
    case Arr(e) => e == []
  }

  predicate Truthy(v: Value) {
    !Empty(v)
  }

  /** `$v ?: []` */
  function OrEmptyArray(v: Value): Value {
    if Empty(v) then Arr([]) else v
  }

  // ---------------------------------------------------------------------------
  // Arrays

  /** `$a[$k] ?? null`, as an Option: the value under the first entry with key k. */
  function Lookup(e: seq<Entry>, k: Key): (r: Option<Value>)
    ensures r.Some? <==> exists x :: x in e && x.key == k
    ensures r.Some? ==> Entry(k, r.value) in e
  {
    if e == [] then None
    else if e[0].key == k then Some(e[0].val)
    else Lookup(e[1..], k)
  }

  /** array_key_exists */
  predicate HasKey(e: seq<Entry>, k: Key) {
    Lookup(e, k).Some?
  }

  /** PHP arrays never hold a key twice. */
  predicate UniqueKeys(e: seq<Entry>) {
    e == [] || (!HasKey(e[1..], e[0].key) && UniqueKeys(e[1..]))
  }

  /** `$a[$k] = $v`: overwrite in place when the key exists, otherwise append. */
  function Assign(e: seq<Entry>, k: Key, v: Value): (r: seq<Entry>)
    ensures Lookup(r, k) == Some(v)
    ensures forall k' {:trigger Lookup(r, k')} :: k' != k ==> Lookup(r, k') == Lookup(e, k')
    ensures |r| == if HasKey(e, k) then |e| else |e| + 1
    ensures forall x :: x in r ==> x.key == k || x in e
  {
    if e == [] then [Entry(k, v)]
    else if e[0].key == k then [Entry(k, v)] + e[1..]
    else [e[0]] + Assign(e[1..], k, v)
  }

  lemma {:induction false} AssignKeepsKeysUnique(e: seq<Entry>, k: Key, v: Value)
    requires UniqueKeys(e)
    ensures UniqueKeys(Assign(e, k, v))
  {
    if e == [] {
    } else if e[0].key == k {
      assert Assign(e, k, v)[1..] == e[1..];
    } else {
      AssignKeepsKeysUnique(e[1..], k, v);
      assert Assign(e, k, v)[1..] == Assign(e[1..], k, v);
      assert Lookup(Assign(e[1..], k, v), e[0].key) == Lookup(e[1..], e[0].key);
    }
  }

  /** In an array without duplicate keys, every entry is what its key looks up. */
  lemma {:induction false} UniqueLookup(e: seq<Entry>, x: Entry)
    requires UniqueKeys(e) && x in e
    ensures Lookup(e, x.key) == Some(x.val)
  {
    if e[0] != x {
      assert x in e[1..];
      UniqueLookup(e[1..], x);
    }
  }

  /** The key `$a[] = ...` uses: one past the largest int key, and never negative. */
  function NextIndex(e: seq<Entry>): (n: int)
    ensures n >= 0
    ensures forall x :: x in e && x.key.IntKey? ==> x.key.i < n
  {
    if e == [] then 0
    else
      var last := e[|e| - 1];
      var m := NextIndex(e[..|e| - 1]);
      assert e == e[..|e| - 1] + [last];
      if last.key.IntKey? && last.key.i + 1 > m then last.key.i + 1 else m
  }

  /** `$a[] = $v` */
  function Push(e: seq<Entry>, v: Value): (r: seq<Entry>)
    ensures |r| == |e| + 1 && r[..|e|] == e && r[|e|].val == v
    ensures !HasKey(e, r[|e|].key)
  {
    e + [Entry(IntKey(NextIndex(e)), v)]
  }

  /** in_array($v, $a, true): strict search among the VALUES of an array. */
  predicate InArray(v: Value, e: seq<Entry>) {
    exists x :: x in e && x.val == v
  }

  /** array_filter($e, fn ($d) => in_array($d, $options, true)), keys kept. */
  function KeepIn(e: seq<Entry>, options: seq<Entry>): (r: seq<Entry>)
    ensures forall x :: x in r <==> x in e && InArray(x.val, options)
    ensures |r| <= |e|
  {
    if e == [] then []
    else (if InArray(e[0].val, options) then [e[0]] else []) + KeepIn(e[1..], options)
  }

  // ---------------------------------------------------------------------------
  // Strings

  /** strtolower: ASCII letters only, as in PHP 8.2. */
  function LowerChar(c: char): char {
    if 'A' <= c <= 'Z' then (c as int + 32) as char else c
  }

  function ToLower(s: string): (r: string)
    ensures |r| == |s|
    ensures forall i :: 0 <= i < |s| ==> r[i] == LowerChar(s[i])
  {
    if s == [] then [] else [LowerChar(s[0])] + ToLower(s[1..])
  }

  /** str_starts_with */
  predicate StartsWith(s: string, prefix: string) {
    |prefix| <= |s| && s[..|prefix|] == prefix
  }

  /** str_contains */
  predicate Contains(s: string, sub: string)
    decreases |s|
  {
    StartsWith(s, sub) || (|s| > 0 && Contains(s[1..], sub))
  }

  // ---------------------------------------------------------------------------
  // Decimal text: is_numeric and intval, and the reverse conversion

  predicate IsDigit(c: char) {
    '0' <= c <= '9'
  }

  predicate AllDigits(s: string) {
    forall i :: 0 <= i < |s| ==> IsDigit(s[i])
  }

  function DigitValue(c: char): nat
    requires IsDigit(c)
  {
    c as int - '0' as int
  }

  function DigitsValue(s: string): nat
    requires AllDigits(s)
  {
    if s == [] then 0 else DigitsValue(s[..|s| - 1]) * 10 + DigitValue(s[|s| - 1])
  }

  /** The whitespace PHP allows around a numeric string. */
  predicate IsSpace(c: char) {
    c == ' ' || c == '\t' || c == '\n' || c == '\r' || c == '\U{000B}' || c == '\U{000C}'
  }

  function TrimStart(s: string): (r: string)
    ensures |r| <= |s| && r == s[|s| - |r|..]
    ensures r == [] || !IsSpace(r[0])
  {
    if |s| > 0 && IsSpace(s[0]) then TrimStart(s[1..]) else s
  }

  function TrimEnd(s: string): (r: string)
    ensures |r| <= |s| && r == s[..|r|]
    ensures r == [] || !IsSpace(r[|r| - 1])
  {
    if |s| > 0 && IsSpace(s[|s| - 1]) then TrimEnd(s[..|s| - 1]) else s
  }

  /** Length of the run of digits that starts s. */
  function DigitRun(s: string): (n: nat)
    ensures n <= |s| && AllDigits(s[..n])
    ensures n < |s| ==> !IsDigit(s[n])
  {
    if |s| > 0 && IsDigit(s[0]) then 1 + DigitRun(s[1..]) else 0
  }

  function Unsigned(t: string): string {
    if |t| > 0 && (t[0] == '+' || t[0] == '-') then t[1..] else t
  }

  /** A numeric string as is_numeric accepts it, in its decimal forms:
      optional surrounding whitespace, an optional sign, digits with an
      optional fractional part, at least one digit in all. */
  predicate IsNumericText(s: string) {
    var u := Unsigned(TrimEnd(TrimStart(s)));
    var n := DigitRun(u);
    (n == |u| && n > 0)
    || (n < |u| && u[n] == '.' && AllDigits(u[n + 1..]) && (n > 0 || n + 1 < |u|))
  }

  /** intval of a numeric string: its integer part, truncated toward zero. */
  function IntValText(s: string): int
    requires IsNumericText(s)
  {
    var t := TrimEnd(TrimStart(s));
    var u := Unsigned(t);
    var m: int := DigitsValue(u[..DigitRun(u)]);
    if |t| > 0 && t[0] == '-' then -m else m
  }

  predicate IsNumeric(v: Value) {
    match v
    case Int(_) => true
    case Str(s) => IsNumericText(s)
    case _ => false
  }

  function IntVal(v: Value): int
    requires IsNumeric(v)
  {
    match v
    case Int(i) => i
    case Str(s) => IntValText(s)
  }

  function DigitChar(d: nat): (c: char)
    requires d < 10
    ensures IsDigit(c) && DigitValue(c) == d
  {
    ('0' as int + d) as char
  }

  /** The decimal text PHP prints for a non-negative int. */
  function NatToString(n: nat): (s: string)
    ensures |s| > 0 && AllDigits(s)
    ensures DigitsValue(s) == n
  {
    if n < 10 then
      assert [DigitChar(n)][..0] == [];
      [DigitChar(n)]
    else
      var a := NatToString(n / 10);
      assert (a + [DigitChar(n % 10)])[..|a|] == a;
      a + [DigitChar(n % 10)]
  }
}
