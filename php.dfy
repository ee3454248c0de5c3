/**
 * The PHP built-ins the Wildfire consumer relies on, modelled on values.
 *
 * PHP strings are byte strings; here one `char` stands for one byte, so
 * `strlen($s)` is `|s|`. `json_decode` and `var_export` are not modelled:
 * they are supplied from outside as a `Builtins` value, and every property
 * of the consumer holds whatever functions are supplied.
 */
module Php {

  datatype Option<+T> = None | Some(value: T) {
    function GetOr(default: T): T {
      if Some? then value else default
    }
  }

  // ---------------------------------------------------------------------------
  // Decimal numerals: `(int)$s` and the decimal rendering of integers
  // ---------------------------------------------------------------------------

  predicate IsDigit(c: char) {
    '0' <= c <= '9'
  }

  predicate AllDigits(s: string) {
    forall i | 0 <= i < |s| :: IsDigit(s[i])
  }

  function DigitValue(c: char): nat
    requires IsDigit(c)
  {
    c as int - '0' as int
  }

  function DigitChar(d: nat): (c: char)
    requires d < 10
    ensures IsDigit(c) && DigitValue(c) == d
  {
    ('0' as int + d) as char
  }

  /** The longest prefix of `s` made of decimal digits. */
  function LeadingDigits(s: string): (d: string)
    ensures d <= s && AllDigits(d)
    ensures |d| == |s| || !IsDigit(s[|d|])
  {
    if |s| == 0 || !IsDigit(s[0]) then [] else [s[0]] + LeadingDigits(s[1..])
  }

  /** The number a string of decimal digits denotes (most significant first). */
  function DecimalValue(ds: string): nat
    requires AllDigits(ds)
  {
    if |ds| == 0 then 0 else 10 * DecimalValue(ds[..|ds| - 1]) + DigitValue(ds[|ds| - 1])
  }

  /** The largest PHP integer on a 64-bit build. */
  const PhpIntMax: nat := 9223372036854775807

  /**
   * `(int)$s`: the value of the leading digits of `s`, 0 when there are none,
   * and `PHP_INT_MAX` when they denote a larger number.
   */
  function IntCast(s: string): (n: nat)
    ensures n <= PhpIntMax
  {
    var v := DecimalValue(LeadingDigits(s));
    if v > PhpIntMax then PhpIntMax else v
  }

  /** The decimal rendering of a natural number, without leading zeros. */
  function NatToDecimal(n: nat): (s: string)
    ensures 1 <= |s| && AllDigits(s)
    ensures s[0] == '0' ==> n == 0
  {
    if n < 10 then [DigitChar(n)] else NatToDecimal(n / 10) + [DigitChar(n % 10)]
  }

  /** `(string)$i` for an integer. */
  function IntToString(i: int): string {
    if i < 0 then "-" + NatToDecimal(-i) else NatToDecimal(i)
  }

  lemma {:induction false} LeadingDigitsOfDigits(s: string)
    requires AllDigits(s)
    ensures LeadingDigits(s) == s
  {
    if |s| > 0 {
      LeadingDigitsOfDigits(s[1..]);
      assert s == [s[0]] + s[1..];
    }
  }

  lemma {:induction false} DecimalValueOfNatToDecimal(n: nat)
    ensures DecimalValue(NatToDecimal(n)) == n
  {
    if n >= 10 {
      DecimalValueOfNatToDecimal(n / 10);
      var s := NatToDecimal(n);
      assert s[..|s| - 1] == NatToDecimal(n / 10);
    }
  }

  /** Reading back the decimal rendering of `n` with `(int)` gives `n`, up to `PHP_INT_MAX`. */
  lemma IntCastOfNatToDecimal(n: nat)
    ensures IntCast(NatToDecimal(n)) == if n <= PhpIntMax then n else PhpIntMax
  {
    LeadingDigitsOfDigits(NatToDecimal(n));
    DecimalValueOfNatToDecimal(n);
  }

  // ---------------------------------------------------------------------------
  // Strings
  // ---------------------------------------------------------------------------

  /** `strpos($s, $c)` for a one-character needle: the first index of `c`. */
  function StrPos(s: string, c: char): (r: Option<nat>)
    ensures r.Some? ==> r.value < |s| && s[r.value] == c && c !in s[..r.value]
    ensures r.None? ==> c !in s
  {
    if |s| == 0 then None
    else if s[0] == c then Some(0)
    else match StrPos(s[1..], c)
      case None => None
      case Some(i) =>
        assert s[..i + 1] == [s[0]] + s[1..][..i];
        Some(i + 1)
  }

  /** `strpos($s, $p) !== false`: `p` occurs somewhere in `s` (case-sensitive). */
  function Contains(s: string, p: string): bool {
    if p <= s then true
    else if |s| == 0 then false
    else Contains(s[1..], p)
  }

  /** `Contains` holds exactly when `p` starts at some position of `s`. */
  lemma {:induction false} ContainsIff(s: string, p: string)
    ensures Contains(s, p) <==> exists i | 0 <= i <= |s| :: p <= s[i..]
  {
    if p <= s {
      assert p <= s[0..];
    } else if |s| > 0 {
      ContainsIff(s[1..], p);
      assert forall i | 1 <= i <= |s| :: s[i..] == s[1..][i - 1..];
    }
  }

  /** `p` occurs in `a + p + b`. */
  lemma ContainsInfix(a: string, p: string, b: string)
    ensures Contains(a + p + b, p)
  {
    var s := a + p + b;
    assert s[|a|..] == p + b;
    ContainsIff(s, p);
  }

  /** `ltrim($s, $c)` for a single character. */
  function TrimLeft(s: string, c: char): (r: string)
    ensures |r| <= |s| && r == s[|s| - |r|..]
    ensures forall k | 0 <= k < |s| - |r| :: s[k] == c
    ensures r == [] || r[0] != c
  {
    if |s| > 0 && s[0] == c then TrimLeft(s[1..], c) else s
  }

  /** `rtrim($s, $c)` for a single character. */
  function TrimRight(s: string, c: char): (r: string)
    ensures |r| <= |s| && r == s[..|r|]
    ensures forall k | |r| <= k < |s| :: s[k] == c
    ensures r == [] || r[|r| - 1] != c
  {
    if |s| > 0 && s[|s| - 1] == c then TrimRight(s[..|s| - 1], c) else s
  }

  /** Neither the first nor the last character of `s` is `c`. */
  predicate Unframed(s: string, c: char) {
    s == [] || (s[0] != c && s[|s| - 1] != c)
  }

  /** `trim($s, $c)`: every leading and trailing `c` removed. */
  function Trim(s: string, c: char): (r: string)
    ensures Unframed(r, c)
  {
    var left := TrimLeft(s, c);
    var r := TrimRight(left, c);
    assert r != [] ==> r[0] == left[0];
    r
  }

  /** `r` is `s` with nothing but a run of `c` removed at each end. */
  ghost predicate TrimmedOf(r: string, s: string, c: char) {
    exists a, b | 0 <= a <= b <= |s| ::
      && r == s[a..b]
      && (forall k | 0 <= k < a :: s[k] == c)
      && (forall k | b <= k < |s| :: s[k] == c)
  }

  /** `trim` removes only a run of `c` at each end: the result is an infix of `s`. */
  lemma TrimInfix(s: string, c: char)
    ensures TrimmedOf(Trim(s, c), s, c)
  {
    var left := TrimLeft(s, c);
    var a := |s| - |left|;
    var b := a + |TrimRight(left, c)|;
    assert Trim(s, c) == s[a..b];
    forall k | b <= k < |s|
      ensures s[k] == c
    {
      assert s[k] == left[k - a];
    }
  }

  lemma TrimWithout(s: string, c: char)
    requires c !in s
    ensures Trim(s, c) == s
  {
  }

  /** Trimming `c` off `c + s + c` gives back `s` when `s` is not framed by `c`. */
  lemma TrimFramed(s: string, c: char)
    requires Unframed(s, c)
    ensures Trim([c] + s + [c], c) == s
  {
    var t := [c] + s + [c];
    assert t[1..] == s + [c];
    if s == [] {
      assert TrimLeft(t, c) == TrimLeft([c], c) == [];
    } else {
      assert TrimLeft(t, c) == s + [c];
      assert (s + [c])[..|s|] == s;
    }
  }

  /**
   * `str_replace($pat, $rep, $s)`: every occurrence of `pat` in `s`, taken
   * left to right without overlap, replaced by `rep`. An empty `pat` leaves
   * `s` unchanged.
   */
  function ReplaceAll(s: string, pat: string, rep: string): string
    decreases |s|
  {
    if |pat| == 0 || |s| < |pat| then s
    else if s[..|pat|] == pat then rep + ReplaceAll(s[|pat|..], pat, rep)
    else [s[0]] + ReplaceAll(s[1..], pat, rep)
  }

  /** A prefix holding no first character of `pat` passes through unchanged. */
  lemma {:induction false} ReplaceAllSkip(x: string, y: string, pat: string, rep: string)
    requires |pat| > 0 && pat[0] !in x
    ensures ReplaceAll(x + y, pat, rep) == x + ReplaceAll(y, pat, rep)
    decreases |x|
  {
    if |x| > 0 {
      var s := x + y;
      assert s[0] == x[0] != pat[0];
      assert s[1..] == x[1..] + y;
      ReplaceAllSkip(x[1..], y, pat, rep);
      assert x == [x[0]] + x[1..];
      if |s| >= |pat| {
        assert s[..|pat|] != pat;
        assert ReplaceAll(s, pat, rep) == [x[0]] + ReplaceAll(x[1..] + y, pat, rep);
        assert [x[0]] + (x[1..] + ReplaceAll(y, pat, rep)) == x + ReplaceAll(y, pat, rep);
      } else {
        assert ReplaceAll(y, pat, rep) == y;
      }
    } else {
      assert x + y == y;
    }
  }

  /** A string holding no first character of `pat` is left unchanged. */
  lemma ReplaceAllWithout(x: string, pat: string, rep: string)
    requires |pat| > 0 && pat[0] !in x
    ensures ReplaceAll(x, pat, rep) == x
  {
    ReplaceAllSkip(x, [], pat, rep);
    assert x + [] == x;
  }

  /** The first occurrence of `pat` after a prefix free of `pat[0]` is replaced. */
  lemma ReplaceAllSplice(x: string, pat: string, y: string, rep: string)
    requires |pat| > 0 && pat[0] !in x
    ensures ReplaceAll(x + pat + y, pat, rep) == x + rep + ReplaceAll(y, pat, rep)
  {
    ReplaceAllSkip(x, pat + y, pat, rep);
    assert x + pat + y == x + (pat + y);
    assert (pat + y)[..|pat|] == pat && (pat + y)[|pat|..] == y;
  }

  /** `implode($sep, $xs)`. */
  function Implode(sep: string, xs: seq<string>): string {
    if |xs| == 0 then "" else if |xs| == 1 then xs[0] else xs[0] + sep + Implode(sep, xs[1..])
  }

  function LowerChar(c: char): char {
    if 'A' <= c <= 'Z' then (c as int + 32) as char else c
  }

  /** `strtolower($s)` on ASCII letters. */
  function ToLower(s: string): (r: string)
    ensures |r| == |s| && forall i | 0 <= i < |s| :: r[i] == LowerChar(s[i])
  {
    if |s| == 0 then [] else [LowerChar(s[0])] + ToLower(s[1..])
  }

  // ---------------------------------------------------------------------------
  // Decoded JSON, as `json_decode($body, true)` returns it
  // ---------------------------------------------------------------------------

  datatype Key = IntKey(index: int) | StrKey(name: string)

  /**
   * A PHP value produced by `json_decode(..., true)`: JSON objects and JSON
   * lists both become ordered arrays of key/value entries (a list's keys are
   * 0, 1, ...). Floating-point numbers are not modelled.
   */
  datatype Json =
    | Null
    | Bool(b: bool)
    | Num(n: int)
    | Str(s: string)
    | Arr(entries: seq<Entry>)

  datatype Entry = Entry(key: Key, value: Json)

  /** The value stored under key `k`, if any. */
  function Lookup(entries: seq<Entry>, k: Key): Option<Json> {
    if |entries| == 0 then None
    else if entries[0].key == k then Some(entries[0].value)
    else Lookup(entries[1..], k)
  }

  /** A key is found exactly when some entry carries it; the first such entry gives the value. */
  lemma {:induction false} LookupFinds(entries: seq<Entry>, k: Key)
    ensures Lookup(entries, k).Some? ==> exists i | 0 <= i < |entries| :: entries[i] == Entry(k, Lookup(entries, k).value)
    ensures Lookup(entries, k).None? ==> forall i | 0 <= i < |entries| :: entries[i].key != k
  {
    if |entries| > 0 && entries[0].key != k {
      LookupFinds(entries[1..], k);
      assert forall i | 1 <= i < |entries| :: entries[i] == entries[1..][i - 1];
    }
  }

  /** The first entry carrying `k` gives the value. */
  lemma {:induction false} LookupFirst(entries: seq<Entry>, k: Key, i: nat)
    requires i < |entries| && entries[i].key == k
    requires forall j | 0 <= j < i :: entries[j].key != k
    ensures Lookup(entries, k) == Some(entries[i].value)
  {
    if i > 0 {
      LookupFirst(entries[1..], k, i - 1);
    }
  }

  /**
   * `$v[$k]`, read as null when `v` is not an array (PHP's string offsets on
   * a string `v` are not modelled) or has no entry for `k`.
   */
  function Get(v: Json, k: Key): Json {
    if v.Arr? then Lookup(v.entries, k).GetOr(Null) else Null
  }

  /** `isset($v[$k])` for a non-numeric string key or an array `v`. */
  predicate IsSet(v: Json, k: Key) {
    Get(v, k) != Null
  }

  /** `empty($v)`. */
  predicate IsEmpty(v: Json) {
    v == Null || v == Bool(false) || v == Num(0) || v == Str("") || v == Str("0") || v == Arr([])
  }

  /** `count($v)` as PHP 7 computes it: 0 for null, 1 for any other scalar. */
  function Count(v: Json): nat {
    match v
    case Null => 0
    case Arr(entries) => |entries|
    case _ => 1
  }

  /** `(string)$v`: the text PHP substitutes when `v` is interpolated or concatenated. */
  function StringOf(v: Json): string {
    match v
    case Null => ""
    case Bool(b) => if b then "1" else ""
    case Num(n) => IntToString(n)
    case Str(s) => s
    case Arr(_) => "Array"
  }

  /** The values `foreach ($v as $x)` visits, in order; none when `v` is not an array. */
  function Values(v: Json): seq<Json> {
    if v.Arr? then seq(|v.entries|, i requires 0 <= i < |v.entries| => v.entries[i].value) else []
  }

  /** The PHP list `[v0, v1, ...]`. */
  function List(vs: seq<Json>): Json {
    Arr(seq(|vs|, i requires 0 <= i < |vs| => Entry(IntKey(i), vs[i])))
  }

  lemma ValuesOfList(vs: seq<Json>)
    ensures Values(List(vs)) == vs
  {
  }

  /** `[v0, v1, ...][i]` is `vi`, and the list counts its elements. */
  lemma GetList(vs: seq<Json>, i: nat)
    requires i < |vs|
    ensures Get(List(vs), IntKey(i)) == vs[i]
    ensures Count(List(vs)) == |vs|
  {
    var entries := List(vs).entries;
    LookupFirst(entries, IntKey(i), i);
  }

  /** The two built-ins the consumer calls but this model does not define. */
  datatype Builtins = Builtins(jsonDecode: string -> Option<Json>, varExport: Json -> string)
}
