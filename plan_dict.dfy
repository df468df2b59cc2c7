/** The month-keyed plan dictionary the planning agents build: keys "month_<n>", kept
    in insertion order as Python dictionaries keep them, and the parsing of a key
    back into its month number. */
module PlanDict {
  import opened Common
  import opened Text

  /** A Python dictionary with string keys: its entries in insertion order. */
  type Dict<V> = seq<(string, V)>

  function Keys<V>(d: Dict<V>): (keys: seq<string>)
    ensures |keys| == |d|
    ensures forall i :: 0 <= i < |d| ==> keys[i] == d[i].0
  {
    if d == [] then [] else [d[0].0] + Keys(d[1..])
  }

  /** No key occurs twice. */
  predicate DistinctKeys<V>(d: Dict<V>) {
    forall i, j :: 0 <= i < j < |d| ==> d[i].0 != d[j].0
  }

  /** The position of a key that is present. */
  function IndexOf<V>(d: Dict<V>, key: string): (i: nat)
    requires key in Keys(d)
    ensures i < |d| && d[i].0 == key
    ensures forall j :: 0 <= j < i ==> d[j].0 != key
    decreases |d|
  {
    if d[0].0 == key then 0
    else
      assert key in Keys(d[1..]) by {
        var k :| 0 <= k < |d| && Keys(d)[k] == key;
        assert Keys(d[1..])[k - 1] == key;
      }
      IndexOf(d[1..], key) + 1
  }

  /** `d[key] = value`: an existing key keeps its place and gets the new value; a
      new key goes last. */
  function Set<V>(d: Dict<V>, key: string, value: V): (r: Dict<V>)
    requires DistinctKeys(d)
    ensures DistinctKeys(r)
    ensures key in Keys(d) ==> |r| == |d| && Keys(r) == Keys(d)
    ensures key !in Keys(d) ==> |r| == |d| + 1 && Keys(r) == Keys(d) + [key] && r[|d|] == (key, value)
    ensures forall i :: 0 <= i < |d| ==> r[i] == if d[i].0 == key then (key, value) else d[i]
  {
    if key in Keys(d) then
      var i := IndexOf(d, key);
      d[i := (key, value)]
    else
      assert forall i :: 0 <= i < |d| ==> d[i].0 != key by {
        forall i | 0 <= i < |d| ensures d[i].0 != key {
          assert Keys(d)[i] == d[i].0;
        }
      }
      d + [(key, value)]
  }

  /** A key that is not present is appended. */
  lemma SetNewKey<V>(d: Dict<V>, key: string, value: V)
    requires DistinctKeys(d) && key !in Keys(d)
    ensures Set(d, key, value) == d + [(key, value)]
  {
    var r := Set(d, key, value);
    assert forall i :: 0 <= i < |d| ==> Keys(d)[i] == d[i].0;
    assert forall i :: 0 <= i < |d| ==> r[i] == d[i];
  }

  /** `del d[key]` for a key that is present: the other entries stay in order. */
  function Del<V>(d: Dict<V>, key: string): (r: Dict<V>)
    requires DistinctKeys(d) && key in Keys(d)
    ensures DistinctKeys(r) && key !in Keys(r)
    ensures |r| == |d| - 1
    ensures exists i :: 0 <= i < |d| && d[i].0 == key && r == d[..i] + d[i + 1..]
  {
    var i := IndexOf(d, key);
    RemoveAt(d, i);
    d[..i] + d[i + 1..]
  }

  lemma RemoveAt<V>(d: Dict<V>, i: nat)
    requires DistinctKeys(d) && i < |d|
    ensures var r := d[..i] + d[i + 1..];
      DistinctKeys(r) && d[i].0 !in Keys(r)
  {
    var r := d[..i] + d[i + 1..];
    assert forall j :: 0 <= j < |r| ==> r[j] == if j < i then d[j] else d[j + 1];
    forall j | 0 <= j < |r| ensures Keys(r)[j] != d[i].0 {
      assert Keys(r)[j] == r[j].0;
    }
  }

  /** Deleting the key just added restores the dictionary. */
  lemma DelUndoesSet<V>(d: Dict<V>, key: string, value: V)
    requires DistinctKeys(d) && key !in Keys(d)
    ensures Del(Set(d, key, value), key) == d
  {
    var r := Set(d, key, value);
    var i := IndexOf(r, key);
    assert forall j :: 0 <= j < |d| ==> Keys(d)[j] == d[j].0;
    assert i == |d|;
  }

  // Month keys

  const MonthPrefix := "month_"

  /** `f"month_{n}"`. */
  function MonthKey(n: nat): (key: string)
    ensures |key| > |MonthPrefix| && key[..|MonthPrefix|] == MonthPrefix
  {
    MonthPrefix + NatToString(n)
  }

  /** Different months have different keys. */
  lemma MonthKeyInjective(m: nat, n: nat)
    requires MonthKey(m) == MonthKey(n)
    ensures m == n
  {
    assert NatToString(m) == MonthKey(m)[|MonthPrefix|..];
    assert NatToString(n) == MonthKey(n)[|MonthPrefix|..];
    NatToStringInjective(m, n);
  }

  /** `int(key.split('_')[1])`: the second piece of the key read as a decimal
      numeral; no second piece (an `IndexError`) or a piece that is not a numeral
      (a `ValueError`) gives `None`. */
  function ParseMonthKey(key: string): (month: Option<nat>)
    ensures month.Some? ==> '_' in key
  {
    var pieces := SplitOn(key, '_');
    if |pieces| < 2 then None
    else if pieces[1] == [] || !AllDigitsIn(pieces[1], Decimal) then None
    else Some(NumeralValue(pieces[1], Decimal))
  }

  /** A month key parses back to its month. */
  lemma ParseMonthKeyRoundTrip(n: nat)
    ensures ParseMonthKey(MonthKey(n)) == Some(n)
  {
    var digits := NatToString(n);
    assert '_' !in digits;
    assert MonthKey(n) == "month" + ['_'] + digits;
    SplitOnFirst("month", '_', digits);
    SplitOnNone(digits, '_');
    NatToStringRoundTrip(n);
  }

  /** The keys "month_1" to "month_n", in order. */
  function MonthKeys(n: nat): (keys: seq<string>)
    ensures |keys| == n
    ensures forall i :: 0 <= i < n ==> keys[i] == MonthKey(i + 1)
  {
    if n == 0 then [] else MonthKeys(n - 1) + [MonthKey(n)]
  }

  /** The keys are "month_1", "month_2", … in order, one per entry. */
  ghost predicate MonthsInOrder<V>(d: Dict<V>) {
    forall i :: 0 <= i < |d| ==> d[i].0 == MonthKey(i + 1)
  }

  /** Keys in month order are exactly the month keys of the dictionary's length. */
  lemma MonthsInOrderKeys<V>(d: Dict<V>)
    ensures MonthsInOrder(d) <==> Keys(d) == MonthKeys(|d|)
  {
    if MonthsInOrder(d) {
      assert forall i :: 0 <= i < |d| ==> Keys(d)[i] == MonthKeys(|d|)[i];
    }
    if Keys(d) == MonthKeys(|d|) {
      assert forall i :: 0 <= i < |d| ==> d[i].0 == Keys(d)[i] == MonthKeys(|d|)[i];
    }
  }

  /** A later month's key is not among the keys of the months before it. */
  lemma MonthKeysExclude(m: nat, n: nat)
    requires m > n
    ensures MonthKey(m) !in MonthKeys(n)
  {
    if MonthKey(m) in MonthKeys(n) {
      var i :| 0 <= i < n && MonthKeys(n)[i] == MonthKey(m);
      MonthKeyInjective(i + 1, m);
    }
  }

  /** A dictionary keyed "month_1" to "month_n" has no key twice. */
  lemma MonthKeysDistinct<V>(d: Dict<V>, n: nat)
    requires Keys(d) == MonthKeys(n)
    ensures DistinctKeys(d)
  {
    forall i, j | 0 <= i < j < |d| ensures d[i].0 != d[j].0 {
      assert Keys(d)[i] == MonthKey(i + 1) && Keys(d)[j] == MonthKey(j + 1);
      if d[i].0 == d[j].0 {
        MonthKeyInjective(i + 1, j + 1);
      }
    }
  }

  /** `key.startswith(prefix)`. */
  predicate StartsWith(key: string, prefix: string) {
    |key| >= |prefix| && key[..|prefix|] == prefix
  }
}
