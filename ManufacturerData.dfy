/**
 * The manufacturer-data mapping of a BLE advertisement: vendor keys to byte
 * blobs, in insertion order, with no key repeated (a Python dict).
 */
module ManufacturerData {
  import opened Types

  predicate DistinctKeys(m: seq<(int, seq<byte>)>)
  {
    forall i, j :: 0 <= i < j < |m| ==> m[i].0 != m[j].0
  }

  type Mapping = m: seq<(int, seq<byte>)> | DistinctKeys(m) witness []

  /** The keys in insertion order, as `list(data.keys())` gives them. */
  function Keys(m: seq<(int, seq<byte>)>): (ks: seq<int>)
    ensures |ks| == |m|
    ensures forall i :: 0 <= i < |m| ==> ks[i] == m[i].0
  {
    if m == [] then [] else [m[0].0] + Keys(m[1..])
  }

  /** Lookup by key, as `data[key]`; None where Python raises KeyError. */
  function Get(m: seq<(int, seq<byte>)>, k: int): (r: Option<seq<byte>>)
    ensures r.Some? ==> (k, r.value) in m
    ensures r.None? <==> k !in Keys(m)
  {
    if m == [] then None
    else if m[0].0 == k then Some(m[0].1)
    else Get(m[1..], k)
  }

  /** With distinct keys, lookup returns exactly the blob stored under the key. */
  lemma GetStored(m: Mapping, k: int, v: seq<byte>)
    ensures Get(m, k) == Some(v) <==> (k, v) in m
  {
  }

  /** Looking up the first key gives the first-inserted blob. */
  lemma FirstKeyBlob(m: Mapping)
    requires |m| > 0
    ensures Get(m, Keys(m)[0]) == Some(m[0].1)
  {
  }
}
