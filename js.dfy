/** The few JavaScript value rules the storefront's views depend on:
    optional values, truthiness and `||` defaults, decimal rendering of
    integers in template literals, and the ordered key/value list that a
    plain object literal is. */
module Js {

  datatype Option<+T> = None | Some(value: T) {
    function GetOr(default: T): T {
      match this
      case Some(v) => v
      case None => default
    }
  }

  /** A JavaScript number as the views see it: either NaN or an integer value.
      Fractional numbers are not modelled. */
  datatype Number = NaN | Num(n: int)

  /** `x || d` on numbers: NaN and 0 are falsy. */
  function NumberOr(x: Number, d: int): (r: int)
    ensures x.Num? && x.n != 0 ==> r == x.n
    ensures (x.NaN? || x.n == 0) ==> r == d
  {
    match x
    case NaN => d
    case Num(n) => if n != 0 then n else d
  }

  /** `s || d` on strings: only the empty string is falsy. */
  function StringOr(s: string, d: string): (r: string)
    ensures s != "" ==> r == s
    ensures s == "" ==> r == d
  {
    if s != "" then s else d
  }

  /** `x || d` where x is a string that may be null or undefined (a missing
      storage key, URL parameter or response field): both fall back, and so
      does "". */
  function NullOr(x: Option<string>, d: string): (r: string)
    ensures x.Some? && x.value != "" ==> r == x.value
    ensures (x.None? || x.value == "") ==> r == d
  {
    match x
    case None => d
    case Some(s) => StringOr(s, d)
  }

  /** The outcome of an awaited server call: the response data, or the
      rejection with the server's `response.data.message`, if it sent one. */
  datatype Response<+T> = Ok(data: T) | Failed(message: Option<string>)

  /** A template literal `${x}` of a value that may be null. */
  function NullableToString(stored: Option<string>): (r: string)
    ensures stored.Some? ==> r == stored.value
    ensures stored.None? ==> r == "null"
  {
    match stored
    case None => "null"
    case Some(s) => s
  }

  // ---------------------------------------------------------------------
  // Decimal rendering of integers, `${n}`

  function DigitChar(d: nat): (c: char)
    requires d < 10
  {
    "0123456789"[d]
  }

  function DigitValue(c: char): nat
  {
    if '0' <= c <= '9' then (c as int - '0' as int) as nat else 0
  }

  predicate IsDigits(s: string)
  {
    forall i :: 0 <= i < |s| ==> '0' <= s[i] <= '9'
  }

  /** The decimal digits of n, most significant first, with no leading zeros. */
  function NatToString(n: nat): (s: string)
    ensures |s| > 0 && IsDigits(s)
    ensures n >= 10 ==> s[0] != '0'
    decreases n
  {
    if n < 10 then [DigitChar(n)] else NatToString(n / 10) + [DigitChar(n % 10)]
  }

  /** The value of a string of decimal digits. */
  function ParseNat(s: string): nat
  {
    if |s| == 0 then 0 else ParseNat(s[..|s| - 1]) * 10 + DigitValue(s[|s| - 1])
  }

  lemma {:induction false} ParseNatToString(n: nat)
    ensures ParseNat(NatToString(n)) == n
    decreases n
  {
    var s := NatToString(n);
    if n >= 10 {
      ParseNatToString(n / 10);
      assert s[..|s| - 1] == NatToString(n / 10);
    }
  }

  /** `${i}` for an integer i. */
  function IntToString(i: int): (s: string)
    ensures |s| > 0
    ensures i >= 0 <==> s[0] != '-'
    ensures i >= 0 ==> IsDigits(s)
  {
    if i < 0 then "-" + NatToString(-i) else NatToString(i)
  }

  lemma NatToStringInjective(a: nat, b: nat)
    requires NatToString(a) == NatToString(b)
    ensures a == b
  {
    ParseNatToString(a);
    ParseNatToString(b);
  }

  /** Rendering an integer loses nothing: distinct integers render differently. */
  lemma IntToStringInjective(i: int, j: int)
    requires IntToString(i) == IntToString(j)
    ensures i == j
  {
    if i < 0 && j < 0 {
      var s, t := NatToString(-i), NatToString(-j);
      assert IntToString(i) == "-" + s && IntToString(j) == "-" + t;
      assert s == ("-" + s)[1..] && t == ("-" + t)[1..];
      NatToStringInjective(-i, -j);
    } else if i >= 0 && j >= 0 {
      NatToStringInjective(i, j);
    }
  }

  // ---------------------------------------------------------------------
  // Plain objects as ordered key/value lists

  /** The entries of a JavaScript object in property order. */
  type Entries<V> = seq<(string, V)>

  function Keys<V>(e: Entries<V>): (ks: seq<string>)
    ensures |ks| == |e|
    ensures forall i :: 0 <= i < |e| ==> ks[i] == e[i].0
  {
    if e == [] then [] else [e[0].0] + Keys(e[1..])
  }

  predicate UniqueKeys<V>(e: Entries<V>)
  {
    forall i, j :: 0 <= i < j < |e| ==> e[i].0 != e[j].0
  }

  predicate HasKey<V>(e: Entries<V>, k: string)
  {
    exists i :: 0 <= i < |e| && e[i].0 == k
  }

  /** `obj[k]`: the value of the first entry with key k, or undefined. */
  function Get<V>(e: Entries<V>, k: string): (r: Option<V>)
    ensures r.Some? <==> HasKey(e, k)
    ensures r.Some? ==> exists i :: 0 <= i < |e| && e[i] == (k, r.value)
  {
    if e == [] then None
    else if e[0].0 == k then Some(e[0].1)
    else
      var r := Get(e[1..], k);
      assert forall i :: 0 <= i < |e| - 1 ==> e[1..][i] == e[i + 1];
      assert HasKey(e[1..], k) ==> HasKey(e, k);
      assert HasKey(e, k) ==> HasKey(e[1..], k);
      r
  }

  /** `{ ...obj, [k]: v }`: an existing property keeps its position and takes
      the new value; a new property is appended at the end. */
  function Put<V>(e: Entries<V>, k: string, v: V): (r: Entries<V>)
    ensures HasKey(e, k) ==> Keys(r) == Keys(e)
    ensures !HasKey(e, k) ==> r == e + [(k, v)]
  {
    if e == [] then [(k, v)]
    else if e[0].0 == k then [(k, v)] + e[1..]
    else
      var tail := Put(e[1..], k, v);
      assert HasKey(e, k) ==> HasKey(e[1..], k);
      assert !HasKey(e, k) ==> !HasKey(e[1..], k);
      [e[0]] + tail
  }

  lemma {:induction false} PutGet<V>(e: Entries<V>, k: string, v: V, k': string)
    ensures Get(Put(e, k, v), k') == if k' == k then Some(v) else Get(e, k')
  {
    if e != [] && e[0].0 != k {
      PutGet(e[1..], k, v, k');
      assert Put(e, k, v)[1..] == Put(e[1..], k, v);
    }
  }

  lemma {:induction false} PutUnique<V>(e: Entries<V>, k: string, v: V)
    requires UniqueKeys(e)
    ensures UniqueKeys(Put(e, k, v))
  {
    var r := Put(e, k, v);
    if HasKey(e, k) {
      assert Keys(r) == Keys(e);
      forall i, j | 0 <= i < j < |r| ensures r[i].0 != r[j].0 {
        assert Keys(r)[i] == Keys(e)[i] && Keys(r)[j] == Keys(e)[j];
      }
    } else {
      forall i, j | 0 <= i < j < |r| ensures r[i].0 != r[j].0 {
        if j == |e| {
          assert r[i] == e[i];
        } else {
          assert r[i] == e[i] && r[j] == e[j];
        }
      }
    }
  }
}
