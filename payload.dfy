/**
 * The flat key/value payload of an HTTP request as Django hands it over (a
 * `QueryDict`: ordered pairs, a key may repeat), the dictionary view of it
 * that the bridge works with, and Python's `int()` applied to one of its values.
 */
module Payload {
  import opened Wrappers

  /** A `QueryDict`: the pairs in the order they arrived. */
  type Pairs = seq<(string, string)>

  /** `k in query_dict` */
  predicate HasKey(p: Pairs, k: string) {
    exists i :: 0 <= i < |p| && p[i].0 == k
  }

  /** The keys of a `QueryDict`, each once (what `for k in query_dict` visits). */
  function Keys(p: Pairs): (ks: set<string>)
    ensures forall k :: k in ks <==> HasKey(p, k)
  {
    set i | 0 <= i < |p| :: p[i].0
  }

  /** `v` is the value of the last pair whose key is `k`. */
  predicate IsLastValue(p: Pairs, k: string, v: string) {
    exists i :: 0 <= i < |p| && p[i] == (k, v) && forall j :: i < j < |p| ==> p[j].0 != k
  }

  /** `query_dict.get(k)`: the last value given for `k`, or `None`. */
  function LastValue(p: Pairs, k: string): (r: Option<string>)
    ensures r.Some? <==> HasKey(p, k)
    ensures r.Some? ==> IsLastValue(p, k, r.value)
  {
    if |p| == 0 then None
    else if p[|p| - 1].0 == k then
      assert p[|p| - 1] == (k, p[|p| - 1].1);
      Some(p[|p| - 1].1)
    else
      DropLastOtherKey(p, k);
      LastValue(p[..|p| - 1], k)
  }

  /** Dropping a final pair for another key changes neither presence nor last value of `k`. */
  lemma DropLastOtherKey(p: Pairs, k: string)
    requires |p| > 0 && p[|p| - 1].0 != k
    ensures HasKey(p, k) <==> HasKey(p[..|p| - 1], k)
    ensures forall v :: IsLastValue(p[..|p| - 1], k, v) ==> IsLastValue(p, k, v)
  {
    var q := p[..|p| - 1];
    assert forall i :: 0 <= i < |q| ==> q[i] == p[i];
    if HasKey(p, k) {
      var i :| 0 <= i < |p| && p[i].0 == k;
      assert q[i].0 == k;
    }
    forall v | IsLastValue(q, k, v) ensures IsLastValue(p, k, v) {
      var i :| 0 <= i < |q| && q[i] == (k, v) && forall j :: i < j < |q| ==> q[j].0 != k;
      assert p[i] == (k, v);
    }
  }

  /** At most one value is the last one given for a key. */
  lemma LastValueUnique(p: Pairs, k: string, v: string, w: string)
    requires IsLastValue(p, k, v) && IsLastValue(p, k, w)
    ensures v == w
  {
    var i :| 0 <= i < |p| && p[i] == (k, v) && forall j :: i < j < |p| ==> p[j].0 != k;
    var i' :| 0 <= i' < |p| && p[i'] == (k, w) && forall j :: i' < j < |p| ==> p[j].0 != k;
    // neither index can lie after the other, so they are the same pair
    assert p[i].0 == k && p[i'].0 == k;
  }

  /**
   * The payload as a `dict`, one value per key, the last one for a key given
   * several times: `dict((k, query_dict.get(k)) for k in query_dict)`.
   */
  function Flatten(p: Pairs): (m: map<string, string>)
    ensures m.Keys == Keys(p)
    ensures forall k :: k in m ==> IsLastValue(p, k, m[k])
  {
    map k | k in Keys(p) :: LastValue(p, k).value
  }

  /** What the flattened payload holds for `k` is what `query_dict.get(k)` answers. */
  lemma FlattenAgreesWithGet(p: Pairs, k: string)
    ensures (k in Flatten(p)) == LastValue(p, k).Some?
    ensures k in Flatten(p) ==> Flatten(p)[k] == LastValue(p, k).value
  {
    if k in Flatten(p) {
      LastValueUnique(p, k, Flatten(p)[k], LastValue(p, k).value);
    }
  }

  /** `d.get(k)` on a plain `dict`. */
  function Get(d: map<string, string>, k: string): (r: Option<string>)
    ensures r.Some? <==> k in d
    ensures r.Some? ==> r.value == d[k]
  {
    if k in d then Some(d[k]) else None
  }

  // ---- Python's int() on a string ----

  predicate IsDigit(c: char) { '0' <= c <= '9' }

  predicate AllDigits(s: string) {
    forall i :: 0 <= i < |s| ==> IsDigit(s[i])
  }

  /** The value of a string of decimal digits. */
  function DigitsValue(s: string): (n: nat)
    requires AllDigits(s)
  {
    if |s| == 0 then 0
    else DigitsValue(s[..|s| - 1]) * 10 + (s[|s| - 1] - '0') as int
  }

  /** `int(s)`: an optional sign followed by one or more decimal digits; anything else raises `ValueError` (`None`). */
  function ParseInt(s: string): (r: Option<int>)
    ensures r.Some? <==> (|s| > 0 && AllDigits(s)) || (|s| > 1 && (s[0] == '-' || s[0] == '+') && AllDigits(s[1..]))
    ensures r.Some? && |s| > 0 && s[0] == '-' ==> r.value <= 0
    ensures r.Some? && |s| > 0 && s[0] != '-' ==> r.value >= 0
  {
    if |s| > 0 && AllDigits(s) then Some(DigitsValue(s))
    else if |s| > 1 && (s[0] == '-' || s[0] == '+') && AllDigits(s[1..]) then
      var v: int := DigitsValue(s[1..]);
      Some(if s[0] == '-' then -v else v)
    else None
  }

  function DigitChar(d: nat): (c: char)
    requires d < 10
    ensures IsDigit(c) && (c - '0') as int == d
  {
    ('0' as int + d) as char
  }

  /** `str(n)` for a natural number: its shortest decimal digits. */
  function NatString(n: nat): (s: string)
    ensures |s| > 0 && AllDigits(s)
  {
    if n < 10 then [DigitChar(n)] else NatString(n / 10) + [DigitChar(n % 10)]
  }

  /** `str(n)` for any integer. */
  function IntString(n: int): (s: string)
    ensures |s| > 0
  {
    if n < 0 then "-" + NatString(-n) else NatString(n)
  }

  lemma {:induction false} DigitsValueOfNatString(n: nat)
    ensures DigitsValue(NatString(n)) == n
  {
    var s := NatString(n);
    if n >= 10 {
      DigitsValueOfNatString(n / 10);
      assert s[..|s| - 1] == NatString(n / 10);
    }
  }

  /** `int(str(n)) == n`: reading back the decimal text of an integer gives the integer. */
  lemma IntRoundTrip(n: int)
    ensures ParseInt(IntString(n)) == Some(n)
  {
    if n < 0 {
      var s := IntString(n);
      assert s[1..] == NatString(-n);
      assert !IsDigit(s[0]);
      DigitsValueOfNatString(-n);
    } else {
      DigitsValueOfNatString(n);
    }
  }
}
