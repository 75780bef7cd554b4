/** A Python `dict` from floats to floats as the scan loops use it: keys
    keep their first-insertion order, and assigning to a key that is
    already present replaces its value without moving it. */
module OrderedDict {
  import opened Selection

  datatype Dict = Dict(keys: seq<real>, vals: map<real, real>)

  ghost predicate Valid(d: Dict) {
    && (forall i, j :: 0 <= i < j < |d.keys| ==> d.keys[i] != d.keys[j])
    && (forall k :: k in d.vals <==> k in d.keys)
  }

  const Empty: Dict := Dict([], map[])

  /** `d[k] = v`. */
  function Put(d: Dict, k: real, v: real): (r: Dict)
    requires Valid(d)
    ensures Valid(r)
    ensures r.vals == d.vals[k := v]
    ensures r.keys == if k in d.keys then d.keys else d.keys + [k]
  {
    Dict(if k in d.vals then d.keys else d.keys + [k], d.vals[k := v])
  }

  /** `list(d.values())`, in insertion order. */
  function Values(d: Dict): (s: seq<real>)
    requires Valid(d)
    ensures |s| == |d.keys|
    ensures forall i :: 0 <= i < |s| ==> d.keys[i] in d.vals && s[i] == d.vals[d.keys[i]]
  {
    KeysInDomain(d);
    seq(|d.keys|, i requires 0 <= i < |d.keys| => d.vals[d.keys[i]])
  }

  lemma KeysInDomain(d: Dict)
    requires Valid(d)
    ensures forall i :: 0 <= i < |d.keys| ==> d.keys[i] in d.vals
  {
    forall i | 0 <= i < |d.keys|
      ensures d.keys[i] in d.vals
    {
      assert d.keys[i] in d.keys;
    }
  }

  /** The keys of a dict filled from `s` in order: each distinct element of
      `s` once, ordered by the position of its first occurrence in `s`. */
  function FirstOccurrences(s: seq<real>): (r: seq<real>)
    ensures forall x :: x in r <==> x in s
    ensures forall i, j :: 0 <= i < j < |r| ==> r[i] != r[j]
    ensures forall i, j :: 0 <= i < j < |r| ==> FirstIndexOf(s, r[i]) < FirstIndexOf(s, r[j])
  {
    if s == [] then []
    else
      var p, y := s[..|s| - 1], s[|s| - 1];
      var r := FirstOccurrences(p);
      assert s == p + [y];
      FirstIndicesKept(p, y);
      if y in r then r
      else
        FirstIndexOfNew(p, y);
        r + [y]
  }

  /** Appending an element leaves the first position of earlier elements. */
  lemma FirstIndicesKept(p: seq<real>, y: real)
    ensures forall x :: x in p ==> FirstIndexOf(p + [y], x) == FirstIndexOf(p, x)
  {
    forall x | x in p
      ensures FirstIndexOf(p + [y], x) == FirstIndexOf(p, x)
    {
      var a, b := FirstIndexOf(p + [y], x), FirstIndexOf(p, x);
      assert (p + [y])[b] == x;
      assert !(a < b) && !(b < a);
    }
  }

  /** A new element appended to `p` first occurs at position `|p|`. */
  lemma FirstIndexOfNew(p: seq<real>, y: real)
    requires y !in p
    ensures FirstIndexOf(p + [y], y) == |p|
  {
    assert (p + [y])[|p|] == y;
  }

  /** The scan loop shared by the dict-based scripts: `for k in candidates:
      d[k] = f(k)`, starting from an empty dict. */
  method Fill(candidates: seq<real>, f: real -> real) returns (d: Dict)
    ensures Valid(d)
    ensures d.keys == FirstOccurrences(candidates)
    ensures forall k :: k in d.vals ==> d.vals[k] == f(k)
  {
    d := Empty;
    for i := 0 to |candidates|
      invariant Valid(d)
      invariant d.keys == FirstOccurrences(candidates[..i])
      invariant forall k :: k in d.vals ==> d.vals[k] == f(k)
    {
      var k := candidates[i];
      assert candidates[..i + 1][..i] == candidates[..i];
      d := Put(d, k, f(k));
    }
    assert candidates[..|candidates|] == candidates;
  }

  /** A list without repeated elements is its own first occurrences. */
  lemma {:induction false} FirstOccurrencesOfDistinct(s: seq<real>)
    requires forall i, j :: 0 <= i < j < |s| ==> s[i] != s[j]
    ensures FirstOccurrences(s) == s
  {
    if s != [] {
      var p, y := s[..|s| - 1], s[|s| - 1];
      assert s == p + [y];
      FirstOccurrencesOfDistinct(p);
      assert y !in p;
      FirstOccurrencesStep(p, y);
    }
  }

  /** Inserting one more element appends it to the keys unless it is present. */
  lemma FirstOccurrencesStep(p: seq<real>, y: real)
    ensures FirstOccurrences(p + [y])
            == if y in FirstOccurrences(p) then FirstOccurrences(p) else FirstOccurrences(p) + [y]
  {
    assert (p + [y])[..|p + [y]| - 1] == p;
  }
}
