/** Picking the best and worst entry of a sequence of error values. The
    scripts do this three ways — `np.argmin`/`np.argmax`, `min`/`max` with
    a key, and "the first key whose value equals min(values)" — and every
    one of them returns the FIRST position that attains the extreme. */
module Selection {

  /** `np.argmin`: the first position holding the smallest value. */
  function ArgMin(s: seq<real>): (k: nat)
    requires |s| > 0
    ensures k < |s|
    ensures forall j :: 0 <= j < |s| ==> s[k] <= s[j]
    ensures forall j :: 0 <= j < k ==> s[k] < s[j]
  {
    if |s| == 1 then 0
    else
      var k := ArgMin(s[..|s| - 1]);
      if s[|s| - 1] < s[k] then |s| - 1 else k
  }

  /** `np.argmax`: the first position holding the largest value. */
  function ArgMax(s: seq<real>): (k: nat)
    requires |s| > 0
    ensures k < |s|
    ensures forall j :: 0 <= j < |s| ==> s[j] <= s[k]
    ensures forall j :: 0 <= j < k ==> s[j] < s[k]
  {
    if |s| == 1 then 0
    else
      var k := ArgMax(s[..|s| - 1]);
      if s[k] < s[|s| - 1] then |s| - 1 else k
  }

  /** Python's `min(values)`. */
  function MinValue(s: seq<real>): (r: real)
    requires |s| > 0
    ensures r in s
    ensures forall j :: 0 <= j < |s| ==> r <= s[j]
  {
    if |s| == 1 then s[0]
    else
      var r := MinValue(s[1..]);
      if s[0] <= r then s[0] else r
  }

  /** Python's `max(values)`. */
  function MaxValue(s: seq<real>): (r: real)
    requires |s| > 0
    ensures r in s
    ensures forall j :: 0 <= j < |s| ==> s[j] <= r
  {
    if |s| == 1 then s[0]
    else
      var r := MaxValue(s[1..]);
      if r <= s[0] then s[0] else r
  }

  /** `[i for i, x in enumerate(s) if x == v][0]`: the first position of `v`. */
  function FirstIndexOf(s: seq<real>, v: real): (k: nat)
    requires v in s
    ensures k < |s| && s[k] == v
    ensures forall j :: 0 <= j < k ==> s[j] != v
  {
    if s[0] == v then 0 else 1 + FirstIndexOf(s[1..], v)
  }

  /** The two ways of finding the best entry agree: the first position
      holding `min(values)` is `np.argmin`. */
  lemma FirstOfMinIsArgMin(s: seq<real>)
    requires |s| > 0
    ensures FirstIndexOf(s, MinValue(s)) == ArgMin(s)
  {
    var a, f := ArgMin(s), FirstIndexOf(s, MinValue(s));
    assert s[a] == MinValue(s);
    assert !(f < a) && !(a < f);
  }

  /** The first position holding `max(values)` is `np.argmax`. */
  lemma FirstOfMaxIsArgMax(s: seq<real>)
    requires |s| > 0
    ensures FirstIndexOf(s, MaxValue(s)) == ArgMax(s)
  {
    var a, f := ArgMax(s), FirstIndexOf(s, MaxValue(s));
    assert s[a] == MaxValue(s);
    assert !(f < a) && !(a < f);
  }

  /** The contract of `ArgMin` determines it: any position that is minimal
      and strictly below every earlier entry is `ArgMin`. */
  lemma ArgMinUnique(s: seq<real>, k: nat)
    requires k < |s|
    requires forall j :: 0 <= j < |s| ==> s[k] <= s[j]
    requires forall j :: 0 <= j < k ==> s[k] < s[j]
    ensures k == ArgMin(s)
  {
    var a := ArgMin(s);
    assert !(a < k) && !(k < a);
  }

  /** Same for `ArgMax`. */
  lemma ArgMaxUnique(s: seq<real>, k: nat)
    requires k < |s|
    requires forall j :: 0 <= j < |s| ==> s[j] <= s[k]
    requires forall j :: 0 <= j < k ==> s[j] < s[k]
    ensures k == ArgMax(s)
  {
    var a := ArgMax(s);
    assert !(a < k) && !(k < a);
  }
}
