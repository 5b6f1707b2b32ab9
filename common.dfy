/** Small helpers shared by every component: an optional value, the string
    operations the plugin uses (prefix/suffix tests, the ".yml" suffix rule,
    case mapping, character replacement), ordered association lists standing
    for Java hash maps that are iterated, and Java's numeric conversions. */
module Common {

  /** Java's nullable results. */
  datatype Option<T> = None | Some(value: T)

  predicate StartsWith(s: string, prefix: string) {
    |prefix| <= |s| && s[..|prefix|] == prefix
  }

  predicate EndsWith(s: string, suffix: string) {
    |suffix| <= |s| && s[|s| - |suffix|..] == suffix
  }

  /** The stage-file name rule every manager applies before a lookup:
      append ".yml" unless the name already ends with it. */
  function WithYml(name: string): (r: string)
    ensures EndsWith(r, ".yml")
    ensures r == name <==> EndsWith(name, ".yml")
    ensures r == name || r == name + ".yml"
  {
    if EndsWith(name, ".yml") then name
    else
      var r := name + ".yml";
      assert r[|r| - 4..] == ".yml";
      r
  }

  /** Normalising twice is normalising once. */
  lemma WithYmlIdempotent(name: string)
    ensures WithYml(WithYml(name)) == WithYml(name)
  {
  }

  /** ASCII case mapping (Java's String.toLowerCase / toUpperCase restricted
      to the characters that occur in material, entity and key names). */
  function LowerChar(c: char): char {
    if 'A' <= c <= 'Z' then (c as int + 32) as char else c
  }

  function UpperChar(c: char): char {
    if 'a' <= c <= 'z' then (c as int - 32) as char else c
  }

  function ToLower(s: string): string {
    seq(|s|, i requires 0 <= i < |s| => LowerChar(s[i]))
  }

  function ToUpper(s: string): string {
    seq(|s|, i requires 0 <= i < |s| => UpperChar(s[i]))
  }

  /** Java's `s.replace(from, to)` for single-character arguments. */
  function ReplaceChar(s: string, from: char, to: char): string {
    seq(|s|, i requires 0 <= i < |s| => if s[i] == from then to else s[i])
  }

  /** Java's `s.replace(target, replacement)`: every non-overlapping
      occurrence of `target`, scanning from the left, is replaced. */
  function ReplaceAll(s: string, target: string, replacement: string): (r: string)
    requires |target| > 0
    ensures replacement == "" ==> |r| <= |s|
    decreases |s|
  {
    if |s| < |target| then s
    else if s[..|target|] == target then replacement + ReplaceAll(s[|target|..], target, replacement)
    else [s[0]] + ReplaceAll(s[1..], target, replacement)
  }

  /** Java's `(int)` conversion of a double: truncation toward zero. */
  function TruncateToInt(d: real): (r: int)
    ensures d >= 0.0 ==> r as real <= d < r as real + 1.0
    ensures d < 0.0 ==> r as real - 1.0 < d <= r as real
  {
    if d >= 0.0 then d.Floor else -((-d).Floor)
  }

  /** Decimal rendering of an integer, as Java's `%d`. */
  function NatToString(n: nat): (r: string)
    ensures |r| >= 1
    ensures forall i :: 0 <= i < |r| ==> '0' <= r[i] <= '9'
    decreases n
  {
    var digit := ['0' + (n % 10) as char];
    if n < 10 then digit else NatToString(n / 10) + digit
  }

  function IntToString(i: int): string {
    if i < 0 then "-" + NatToString(-i) else NatToString(i)
  }

  /** Java's `nextInt(lo, hi + 1)` when hi > lo, and lo otherwise, driven by
      the injected draw d. */
  function DrawBetween(lo: int, hi: int, d: nat): (v: int)
    ensures hi <= lo ==> v == lo
    ensures hi > lo ==> lo <= v <= hi
  {
    if hi > lo then lo + d % (hi - lo + 1) else lo
  }

  /** Every value of the range is produced by some draw, so the injected draw
      does not narrow the outcomes. */
  lemma DrawBetweenCovers(lo: int, hi: int, v: int)
    requires lo < hi && lo <= v <= hi
    ensures DrawBetween(lo, hi, (v - lo) as nat) == v
  {
    assert (v - lo) % (hi - lo + 1) == v - lo;
  }

  // Ordered association lists. A Java HashMap that the plugin iterates is
  // modelled by the list of its entries in iteration order.

  function Keys<V>(a: seq<(string, V)>): (ks: seq<string>)
    ensures |ks| == |a|
    ensures forall i :: 0 <= i < |a| ==> ks[i] == a[i].0
  {
    seq(|a|, i requires 0 <= i < |a| => a[i].0)
  }

  /** The position of the first entry with that key, or the length. */
  function IndexOf<V>(a: seq<(string, V)>, key: string): (i: nat)
    ensures i <= |a|
    ensures i < |a| ==> a[i].0 == key
    ensures forall j :: 0 <= j < i ==> a[j].0 != key
  {
    if |a| == 0 then 0
    else if a[0].0 == key then 0
    else 1 + IndexOf(a[1..], key)
  }

  /** `map.get(key)`: the value of the first entry with that key. */
  function Lookup<V>(a: seq<(string, V)>, key: string): (r: Option<V>)
    ensures r.None? <==> forall i :: 0 <= i < |a| ==> a[i].0 != key
    ensures r.Some? ==> exists i :: 0 <= i < |a| && a[i] == (key, r.value)
  {
    var i := IndexOf(a, key);
    if i < |a| then Some(a[i].1) else None
  }

  /** `map.put(key, value)`: replaces the value of an existing key in place,
      otherwise appends a new entry. */
  function Put<V>(a: seq<(string, V)>, key: string, value: V): (r: seq<(string, V)>)
    ensures Lookup(r, key) == Some(value)
    ensures forall k :: k != key ==> Lookup(r, k) == Lookup(a, k)
    ensures Lookup(a, key).None? ==> r == a + [(key, value)]
    ensures Lookup(a, key).Some? ==> Keys(r) == Keys(a)
  {
    var i := IndexOf(a, key);
    var r := if i < |a| then a[i := (key, value)] else a + [(key, value)];
    assert forall j :: 0 <= j < i ==> r[j] == a[j];
    assert r[i].0 == key;
    assert IndexOf(r, key) == i;
    forall k | k != key
      ensures Lookup(r, k) == Lookup(a, k)
    {
      var m := IndexOf(a, k);
      if m < |a| {
        assert r[m] == a[m];
        assert IndexOf(r, k) == m;
      } else {
        assert forall j :: 0 <= j < |r| ==> r[j].0 != k;
      }
    }
    r
  }

  /** Two lists with the same keys put a key at the same position. */
  lemma {:induction false} IndexOfSameKeys<V, W>(a: seq<(string, V)>, b: seq<(string, W)>, key: string)
    requires |a| == |b| && forall i :: 0 <= i < |a| ==> a[i].0 == b[i].0
    ensures IndexOf(a, key) == IndexOf(b, key)
  {
    if |a| > 0 && a[0].0 != key {
      IndexOfSameKeys(a[1..], b[1..], key);
    }
  }
}
