/**
 * The `Record<string, {value, unit}>` tables that the oscillators return from
 * getParameters, getKnownData and getUnknowns. A JavaScript object literal
 * keeps its keys in insertion order, so a table is a sequence of entries;
 * reading `table[name].value` is `Lookup`.
 */
module Tables {

  datatype Option<T> = None | Some(value: T)

  datatype Entry = Entry(name: string, value: real, unit: string)

  function Names(t: seq<Entry>): (names: seq<string>)
    ensures |names| == |t|
    ensures forall i :: 0 <= i < |t| ==> names[i] == t[i].name
  {
    if t == [] then [] else [t[0].name] + Names(t[1..])
  }

  function Values(t: seq<Entry>): (values: seq<real>)
    ensures |values| == |t|
    ensures forall i :: 0 <= i < |t| ==> values[i] == t[i].value
  {
    if t == [] then [] else [t[0].value] + Values(t[1..])
  }

  function Units(t: seq<Entry>): (units: seq<string>)
    ensures |units| == |t|
    ensures forall i :: 0 <= i < |t| ==> units[i] == t[i].unit
  {
    if t == [] then [] else [t[0].unit] + Units(t[1..])
  }

  /** No key appears twice, as in an object literal. */
  predicate DistinctNames(t: seq<Entry>) {
    forall i, j :: 0 <= i < j < |t| ==> t[i].name != t[j].name
  }

  /** Property access by key. The model returns the first entry with that name; a
      JavaScript object literal with a repeated key would keep the last value instead,
      so the model relies on every table having distinct keys, which is proved for each. */
  function Lookup(t: seq<Entry>, name: string): (r: Option<real>)
    ensures r.None? <==> forall i :: 0 <= i < |t| ==> t[i].name != name
    ensures r.Some? ==> exists i :: 0 <= i < |t| && t[i].name == name && t[i].value == r.value
  {
    if t == [] then None
    else if t[0].name == name then Some(t[0].value)
    else Lookup(t[1..], name)
  }

  /** In a table without repeated keys, looking up the key of row i gives row i's value. */
  lemma {:induction false} LookupDistinct(t: seq<Entry>, i: nat)
    requires DistinctNames(t) && i < |t|
    ensures Lookup(t, t[i].name) == Some(t[i].value)
  {
    if i > 0 {
      assert t[0].name != t[i].name;
      assert DistinctNames(t[1..]) by {
        forall a, b | 0 <= a < b < |t| - 1 ensures t[1..][a].name != t[1..][b].name {
          assert t[a + 1].name != t[b + 1].name;
        }
      }
      LookupDistinct(t[1..], i - 1);
    }
  }
}
