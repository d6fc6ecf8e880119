/**
 * Map layers as the plugin sees them: objects with a mutable opacity whose
 * setter may raise, and the best-effort loop that writes one opacity to every
 * target layer, logging and skipping a layer that raises.
 */
module Layers {

  /** A host map layer. `fails` stands for a layer whose setOpacity raises. */
  class Layer {
    var opacity: real
    const fails: bool

    constructor (opacity: real, fails: bool)
      ensures this.opacity == opacity && this.fails == fails
    {
      this.opacity := opacity;
      this.fails := fails;
    }

    /** The host's setOpacity: a failing layer raises and keeps its opacity. */
    method SetOpacity(x: real) returns (ok: bool)
      modifies this
      ensures ok == !fails
      ensures opacity == if fails then old(opacity) else x
    {
      ok := !fails;
      if ok {
        opacity := x;
      }
    }
  }

  /** The set of objects a loop over `ls` may change. */
  ghost function Footprint(ls: seq<Layer>): set<Layer>
  {
    set l | l in ls
  }

  /** The opacities of `ls`, in order. */
  ghost function Opacities(ls: seq<Layer>): (r: seq<real>)
    reads Footprint(ls)
    ensures |r| == |ls|
    ensures forall i :: 0 <= i < |ls| ==> r[i] == ls[i].opacity
  {
    if ls == [] then [] else [ls[0].opacity] + Opacities(ls[1..])
  }

  /** Which of `ls` raise on a write, in order. */
  function Fails(ls: seq<Layer>): (r: seq<bool>)
    ensures |r| == |ls|
    ensures forall i :: 0 <= i < |ls| ==> r[i] == ls[i].fails
  {
    if ls == [] then [] else [ls[0].fails] + Fails(ls[1..])
  }

  /**
   * The opacities after a best-effort loop that tries to give layer i the
   * opacity want[i]: every layer that does not raise holds its wanted value,
   * every layer that raises keeps its current one, and a raise does not stop
   * the layers after it.
   */
  function Written(cur: seq<real>, fails: seq<bool>, want: seq<real>): (r: seq<real>)
    requires |fails| == |cur| && |want| == |cur|
    ensures |r| == |cur|
    ensures forall i :: 0 <= i < |cur| && !fails[i] ==> r[i] == want[i]
    ensures forall i :: 0 <= i < |cur| && fails[i] ==> r[i] == cur[i]
  {
    if cur == [] then []
    else [if fails[0] then cur[0] else want[0]] + Written(cur[1..], fails[1..], want[1..])
  }

  /** `n` copies of `x`. */
  function Uniform(n: nat, x: real): (r: seq<real>)
    ensures |r| == n
    ensures forall i :: 0 <= i < n ==> r[i] == x
  {
    if n == 0 then [] else [x] + Uniform(n - 1, x)
  }

  /** The opacities after the best-effort loop that writes `x` to every layer. */
  function Broadcast(cur: seq<real>, fails: seq<bool>, x: real): (r: seq<real>)
    requires |fails| == |cur|
    ensures |r| == |cur|
  {
    Written(cur, fails, Uniform(|cur|, x))
  }

  /** A second identical write changes nothing. */
  lemma WrittenIdempotent(cur: seq<real>, fails: seq<bool>, want: seq<real>)
    requires |fails| == |cur| && |want| == |cur|
    ensures Written(Written(cur, fails, want), fails, want) == Written(cur, fails, want)
  {
  }

  /** Only the last of two writes shows: what the first did is overwritten or was never done. */
  lemma WrittenOverwrites(cur: seq<real>, fails: seq<bool>, first: seq<real>, want: seq<real>)
    requires |fails| == |cur| && |first| == |cur| && |want| == |cur|
    ensures Written(Written(cur, fails, first), fails, want) == Written(cur, fails, want)
  {
  }

  /**
   * The per-layer write loop shared by the live preview and the final apply:
   * each layer's setOpacity is tried in turn; a layer that raises is logged
   * and skipped and the loop goes on with the next one.
   */
  method SetAll(ls: seq<Layer>, x: real)
    modifies Footprint(ls)
    ensures Opacities(ls) == Broadcast(old(Opacities(ls)), Fails(ls), x)
  {
    var i := 0;
    while i < |ls|
      invariant 0 <= i <= |ls|
      invariant forall l :: l in ls ==>
        l.opacity == if l in ls[..i] && !l.fails then x else old(l.opacity)
    {
      var ok := ls[i].SetOpacity(x);
      // A layer that raised is only logged; nothing else happens to it.
      assert ls[..i + 1] == ls[..i] + [ls[i]];
      i := i + 1;
    }
    assert ls[..i] == ls;
  }
}
