/**
 What the bodies of callbacks do to the object that runs them.
 */
module Scripts {
  /** For each callback that is run, counted from 0, the operations its body performs, in order. */
  type Script<!O> = nat -> seq<O>

  /** None of the first `n` callbacks performs the operation. */
  ghost predicate NoneDoes<O>(script: Script<O>, n: nat, op: O) {
    forall k :: 0 <= k < n ==> op !in script(k)
  }

  /** What the first `n` callbacks perform, one after the other. */
  function Flat<O>(script: Script<O>, n: nat): seq<O> {
    if n == 0 then [] else Flat(script, n - 1) + script(n - 1)
  }

  /** Where the operations of callback `k` are among those of all: from `start` on, and nothing else is in between. */
  lemma {:induction false} FlatAt<O>(script: Script<O>, n: nat, k: nat) returns (start: nat)
    requires k < n
    ensures start + |script(k)| <= |Flat(script, n)|
    ensures Flat(script, n)[start..start + |script(k)|] == script(k)
    ensures start == |Flat(script, k)|
    ensures k == n - 1 ==> start + |script(k)| == |Flat(script, n)|
    ensures k == 0 ==> start == 0
  {
    start := |Flat(script, k)|;
    if k < n - 1 {
      var s := FlatAt(script, n - 1, k);
      var all := Flat(script, n);
      assert all[start..start + |script(k)|] == Flat(script, n - 1)[start..start + |script(k)|];
    }
  }
}
