/**
 * The transparency dialog: a percent kept in [0,100] by its slider and spin
 * box, a live-preview checkbox, a snapshot of every target layer's opacity
 * taken when the dialog is built, a preview written on each value change
 * while the box is checked, and a restore on Cancel while the box is checked.
 *
 * The pure part (View, AfterEdit, AfterEdits, AfterCancel) is the
 * specification of the dialog; the class TransparencyDialog is proved to
 * follow it.
 */
module Dialog {
  import opened Layers

  datatype Option<T> = None | Some(value: T)

  /** Lower and upper end of the slider's and the spin box's range. */
  const MinPercent: int := 0
  const MaxPercent: int := 100

  /** What the slider and the spin box do with a value set on them: pull it into their range. */
  function Clamp(v: int): (r: int)
    ensures MinPercent <= r <= MaxPercent
    ensures MinPercent <= v <= MaxPercent ==> r == v
    ensures v < MinPercent ==> r == MinPercent
    ensures v > MaxPercent ==> r == MaxPercent
  {
    if v < MinPercent then MinPercent else if v > MaxPercent then MaxPercent else v
  }

  /** The layer opacity for a transparency percent, computed exactly. */
  function Opacity(percent: int): (r: real)
    ensures MinPercent <= percent <= MaxPercent ==> 0.0 <= r <= 1.0
    ensures percent == 0 ==> r == 1.0
    ensures percent == 100 ==> r == 0.0
    ensures percent == 50 ==> r == 0.5
  {
    1.0 - percent as real / 100.0
  }

  /** A user action while the dialog is open. */
  datatype Edit =
    | Slide(to: int)   // the slider is dragged or a number is typed into the spin box
    | Toggle           // the live-preview checkbox is clicked

  /** How the dialog is closed. */
  datatype Ending =
    | OkButton       // accept()
    | CancelButton   // the rejected signal: restore, then reject()
    | Dismissed      // Esc or the window's close button: reject() alone, no restore

  /** What the dialog shows and what the target layers show, in target order. */
  datatype View = View(opacities: seq<real>, value: int, checked: bool)

  /**
   * One user action. Slider and spin box report a change only when the
   * (clamped) value differs from the current one; a reported change writes a
   * preview to every target if the checkbox is checked at that moment.
   * Clicking the checkbox writes nothing.
   */
  function AfterEdit(fails: seq<bool>, s: View, e: Edit): (r: View)
    requires |s.opacities| == |fails|
    ensures |r.opacities| == |fails|
    ensures e.Slide? ==> r.value == Clamp(e.to) && r.checked == s.checked
    ensures e.Toggle? ==> r.value == s.value && r.checked == !s.checked && r.opacities == s.opacities
    ensures e.Slide? && !s.checked ==> r.opacities == s.opacities
    ensures e.Slide? && Clamp(e.to) == s.value ==> r == s
    ensures e.Slide? && s.checked && Clamp(e.to) != s.value ==>
      forall i :: 0 <= i < |fails| ==>
        r.opacities[i] == if fails[i] then s.opacities[i] else Opacity(r.value)
  {
    match e
    case Toggle => s.(checked := !s.checked)
    case Slide(to) =>
      var v := Clamp(to);
      if v == s.value then s
      else if s.checked then View(Broadcast(s.opacities, fails, Opacity(v)), v, true)
      else s.(value := v)
  }

  /** The target of the last slider action in `es`, if there is one. */
  function LastSlide(es: seq<Edit>): Option<int>
    decreases |es|
  {
    if es == [] then None
    else if es[|es| - 1].Slide? then Some(es[|es| - 1].to)
    else LastSlide(es[..|es| - 1])
  }

  /** A sequence of user actions, applied in order. */
  function AfterEdits(fails: seq<bool>, s: View, es: seq<Edit>): (r: View)
    requires |s.opacities| == |fails|
    ensures |r.opacities| == |fails|
    ensures MinPercent <= s.value <= MaxPercent ==> MinPercent <= r.value <= MaxPercent
    ensures r.value == match LastSlide(es) case None => s.value case Some(v) => Clamp(v)
    decreases |es|
  {
    if es == [] then s
    else AfterEdit(fails, AfterEdits(fails, s, es[..|es| - 1]), es[|es| - 1])
  }

  /**
   * The opacities after Cancel: the snapshot is written back to every target
   * when the checkbox is checked at that moment, and nothing is written when
   * it is not, whatever previews came before.
   */
  function AfterCancel(fails: seq<bool>, original: seq<real>, s: View): (r: seq<real>)
    requires |s.opacities| == |fails| && |original| == |fails|
    ensures |r| == |fails|
    ensures !s.checked ==> r == s.opacities
    ensures forall i :: 0 <= i < |fails| && s.checked && !fails[i] ==> r[i] == original[i]
    ensures forall i :: 0 <= i < |fails| && fails[i] ==> r[i] == s.opacities[i]
  {
    if s.checked then Written(s.opacities, fails, original) else s.opacities
  }

  /** The opacities the targets show: the snapshot, or the last previewed percent on every layer that took it. */
  function Showing(original: seq<real>, fails: seq<bool>, shown: Option<int>): (r: seq<real>)
    requires |fails| == |original|
    ensures |r| == |original|
  {
    match shown
    case None => original
    case Some(p) => Broadcast(original, fails, Opacity(p))
  }

  /** Whether action `k` of `es`, started from `s`, writes a preview to the targets. */
  ghost predicate Previews(fails: seq<bool>, s: View, es: seq<Edit>, k: int)
    requires |s.opacities| == |fails| && 0 <= k < |es|
  {
    var m := AfterEdits(fails, s, es[..k]);
    es[k].Slide? && m.checked && Clamp(es[k].to) != m.value
  }

  /**
   * The percent whose opacity the targets show after `es`: that of the last
   * action that wrote a preview, or `before` when none did.
   */
  ghost function LastPreview(fails: seq<bool>, s: View, es: seq<Edit>, before: Option<int>): Option<int>
    requires |s.opacities| == |fails|
    decreases |es|
  {
    if es == [] then before
    else if Previews(fails, s, es, |es| - 1) then Some(Clamp(es[|es| - 1].to))
    else LastPreview(fails, s, es[..|es| - 1], before)
  }

  /** Dropping the last action does not change whether an earlier one previews. */
  lemma PreviewsOfPrefix(fails: seq<bool>, s: View, es: seq<Edit>, k: int)
    requires |s.opacities| == |fails| && 0 <= k < |es| - 1
    ensures Previews(fails, s, es, k) == Previews(fails, s, es[..|es| - 1], k)
  {
    assert es[..k] == es[..|es| - 1][..k];
  }

  /** With no action writing a preview, the targets show what they showed before. */
  lemma {:induction false} NoPreviewKeepsShown(
    fails: seq<bool>, s: View, es: seq<Edit>, before: Option<int>)
    requires |s.opacities| == |fails|
    requires forall k :: 0 <= k < |es| ==> !Previews(fails, s, es, k)
    ensures LastPreview(fails, s, es, before) == before
    decreases |es|
  {
    if es != [] {
      var n := |es| - 1;
      forall k | 0 <= k < n
        ensures !Previews(fails, s, es[..n], k)
      {
        PreviewsOfPrefix(fails, s, es, k);
      }
      NoPreviewKeepsShown(fails, s, es[..n], before);
    }
  }

  /** The percent shown is that of the last action that wrote a preview. */
  lemma {:induction false} MostRecentPreviewShown(
    fails: seq<bool>, s: View, es: seq<Edit>, before: Option<int>, k: int)
    requires |s.opacities| == |fails| && 0 <= k < |es|
    requires Previews(fails, s, es, k)
    requires forall j :: k < j < |es| ==> !Previews(fails, s, es, j)
    ensures LastPreview(fails, s, es, before) == Some(Clamp(es[k].to))
    decreases |es|
  {
    var n := |es| - 1;
    if k < n {
      assert !Previews(fails, s, es, n);
      PreviewsOfPrefix(fails, s, es, k);
      forall j | k < j < n
        ensures !Previews(fails, s, es[..n], j)
      {
        PreviewsOfPrefix(fails, s, es, j);
      }
      MostRecentPreviewShown(fails, s, es[..n], before, k);
    }
  }

  /**
   * While the dialog is open, every target shows either its snapshot opacity
   * or the opacity of the most recently previewed percent, the same one on
   * every layer that took the write; a layer whose write raises keeps its
   * snapshot opacity.
   */
  lemma {:induction false} EditsShowOnePreview(
    fails: seq<bool>, original: seq<real>, s: View, before: Option<int>, es: seq<Edit>)
    returns (shown: Option<int>)
    requires |fails| == |original| && |s.opacities| == |fails|
    requires before.Some? ==> MinPercent <= before.value <= MaxPercent
    requires s.opacities == Showing(original, fails, before)
    ensures shown == LastPreview(fails, s, es, before)
    ensures shown.Some? ==> MinPercent <= shown.value <= MaxPercent
    ensures AfterEdits(fails, s, es).opacities == Showing(original, fails, shown)
    decreases |es|
  {
    if es == [] {
      shown := before;
    } else {
      var n := |es| - 1;
      var prefix := es[..n];
      var mid := EditsShowOnePreview(fails, original, s, before, prefix);
      var m := AfterEdits(fails, s, prefix);
      var e := es[n];
      if e.Slide? && m.checked && Clamp(e.to) != m.value {
        shown := Some(Clamp(e.to));
        WrittenOverwrites(original, fails, m.opacities, Uniform(|original|, Opacity(Clamp(e.to))));
        match mid
        case None =>
        case Some(p) =>
          WrittenOverwrites(original, fails, Uniform(|original|, Opacity(p)),
                            Uniform(|original|, Opacity(Clamp(e.to))));
      } else {
        shown := mid;
      }
    }
  }

  /**
   * Cancel with the checkbox checked gives every target back its snapshot
   * opacity, whatever was previewed and toggled before.
   */
  lemma {:induction false} CancelRestoresSnapshot(
    fails: seq<bool>, original: seq<real>, start: int, preview: bool, es: seq<Edit>)
    requires |fails| == |original|
    ensures var s := AfterEdits(fails, View(original, Clamp(start), preview), es);
      s.checked ==> AfterCancel(fails, original, s) == original
  {
    var s := AfterEdits(fails, View(original, Clamp(start), preview), es);
    var shown := EditsShowOnePreview(fails, original, View(original, Clamp(start), preview), None, es);
    if s.checked {
      match shown
      case None =>
      case Some(p) =>
        WrittenOverwrites(original, fails, Uniform(|original|, Opacity(p)), original);
    }
  }

  /** A second Cancel after a first one writes nothing new. */
  lemma CancelIdempotent(fails: seq<bool>, original: seq<real>, s: View)
    requires |s.opacities| == |fails| && |original| == |fails|
    ensures AfterCancel(fails, original, s.(opacities := AfterCancel(fails, original, s)))
         == AfterCancel(fails, original, s)
  {
  }

  /**
   * The final write on OK overrides every preview: the result is the same
   * as writing the final percent over the snapshot, whether or not the
   * preview was ever on.
   */
  lemma {:induction false} AcceptOverridesPreview(
    fails: seq<bool>, original: seq<real>, start: int, preview: bool, es: seq<Edit>, x: real)
    requires |fails| == |original|
    ensures Broadcast(AfterEdits(fails, View(original, Clamp(start), preview), es).opacities, fails, x)
         == Broadcast(original, fails, x)
  {
    var shown := EditsShowOnePreview(fails, original, View(original, Clamp(start), preview), None, es);
    match shown
    case None =>
    case Some(p) =>
      WrittenOverwrites(original, fails, Uniform(|original|, Opacity(p)), Uniform(|original|, x));
  }

  /**
   * The checkbox is read when Cancel is pressed, not when the preview was
   * written: preview at 30 %, uncheck, Cancel, and the layers stay at 0.7.
   */
  lemma UncheckedCancelKeepsPreview()
    ensures var s := AfterEdits([false, false], View([0.2, 0.8], 50, true), [Slide(30), Toggle]);
      AfterCancel([false, false], [0.2, 0.8], s) == [0.7, 0.7]
  {
    var s1 := AfterEdits([false, false], View([0.2, 0.8], 50, true), [Slide(30)]);
    assert [Slide(30), Toggle][..1] == [Slide(30)];
    assert s1.opacities == [0.7, 0.7];
  }

  /** Two layers at 0.2 and 0.8, start at 50 % with preview on: 30 %, then 80 %, then Cancel. */
  lemma PreviewScenario()
    ensures AfterEdits([false, false], View([0.2, 0.8], 50, true), [Slide(30)]).opacities == [0.7, 0.7]
    ensures AfterEdits([false, false], View([0.2, 0.8], 50, true), [Slide(30), Slide(80)]).opacities
         == [0.2, 0.2]
    ensures AfterCancel([false, false], [0.2, 0.8],
              AfterEdits([false, false], View([0.2, 0.8], 50, true), [Slide(30), Slide(80)]))
         == [0.2, 0.8]
  {
    assert [Slide(30), Slide(80)][..1] == [Slide(30)];
  }

  /** The same two layers with preview off: 30 % changes nothing until OK writes 0.7 to both. */
  lemma NoPreviewScenario()
    ensures AfterEdits([false, false], View([0.2, 0.8], 50, false), [Slide(30)]).opacities == [0.2, 0.8]
    ensures Broadcast([0.2, 0.8], [false, false], Opacity(30)) == [0.7, 0.7]
  {
  }

  /** The snapshot values of `ls` in order, looked up in `m`. */
  function Lookup(m: map<Layer, real>, ls: seq<Layer>): (r: seq<real>)
    requires forall l :: l in ls ==> l in m
    ensures |r| == |ls|
    ensures forall i :: 0 <= i < |ls| ==> r[i] == m[ls[i]]
  {
    if ls == [] then [] else [m[ls[0]]] + Lookup(m, ls[1..])
  }

  class TransparencyDialog {
    /** The target layers, fixed when the dialog is built. */
    const layers: seq<Layer>
    /** Each target's opacity when the dialog was built. */
    const original: map<Layer, real>
    /** The percent shown by the slider and the spin box, which are kept equal. */
    var value: int
    /** The live-preview checkbox. */
    var previewChecked: bool

    ghost predicate Valid()
      reads this
    {
      && MinPercent <= value <= MaxPercent
      && original.Keys == Footprint(layers)
    }

    /** The snapshot, in target order. */
    function Snapshot(): (r: seq<real>)
      reads this
      requires Valid()
      ensures |r| == |layers|
    {
      Lookup(original, layers)
    }

    ghost function State(): View
      reads this, Footprint(layers)
    {
      View(Opacities(layers), value, previewChecked)
    }

    /** Builds the dialog and snapshots every target's opacity; writes nothing. */
    constructor (initialValue: int, layers: seq<Layer>, previewDefault: bool)
      ensures Valid()
      ensures this.layers == layers
      ensures value == Clamp(initialValue) && previewChecked == previewDefault
      ensures Snapshot() == Opacities(layers)
    {
      this.layers := layers;
      original := map l | l in layers :: l.opacity;
      value := Clamp(initialValue);
      previewChecked := previewDefault;
    }

    /** The percent to apply on OK; always in range. */
    function Value(): (r: int)
      reads this
      requires Valid()
      ensures MinPercent <= r <= MaxPercent
    {
      value
    }

    /** The preview flag handed to the driver: the checkbox as it stands when asked. */
    function PreviewEnabled(): (r: bool)
      reads this
      ensures r == previewChecked
    {
      previewChecked
    }

    /** Writes the opacity for `percent` to every target, best effort. */
    method ApplyPreview(percent: int)
      modifies Footprint(layers)
      ensures Opacities(layers) == Broadcast(old(Opacities(layers)), Fails(layers), Opacity(percent))
    {
      SetAll(layers, Opacity(percent));
    }

    /** The handler of a reported value change: preview only if the box is checked now. */
    method MaybePreview(percent: int)
      modifies Footprint(layers)
      ensures previewChecked ==>
        Opacities(layers) == Broadcast(old(Opacities(layers)), Fails(layers), Opacity(percent))
      ensures !previewChecked ==> Opacities(layers) == old(Opacities(layers))
    {
      if previewChecked {
        ApplyPreview(percent);
      }
    }

    /** The slider or the spin box is set to `v`. */
    method SetValue(v: int)
      requires Valid()
      modifies this, Footprint(layers)
      ensures Valid()
      ensures State() == AfterEdit(Fails(layers), old(State()), Slide(v))
    {
      var c := Clamp(v);
      if c != value {
        value := c;
        MaybePreview(c);
      }
    }

    /** The live-preview checkbox is clicked. */
    method TogglePreview()
      requires Valid()
      modifies this
      ensures Valid()
      ensures State() == AfterEdit(Fails(layers), old(State()), Toggle)
    {
      previewChecked := !previewChecked;
    }

    /** The Cancel button's restore: only when the box is checked now. */
    method Cancel()
      requires Valid()
      modifies Footprint(layers)
      ensures Opacities(layers) == AfterCancel(Fails(layers), Snapshot(), old(State()))
    {
      if !previewChecked {
        return;
      }
      var i := 0;
      while i < |layers|
        invariant 0 <= i <= |layers|
        invariant forall l :: l in layers ==>
          l.opacity == if l in layers[..i] && !l.fails then original[l] else old(l.opacity)
      {
        var l := layers[i];
        var ok := l.SetOpacity(original[l]);
        // A layer that raised is only logged; nothing else happens to it.
        assert layers[..i + 1] == layers[..i] + [l];
        i := i + 1;
      }
      assert layers[..i] == layers;
    }

    /**
     * The modal run of the dialog: the user's actions in order, then the
     * way the dialog is closed. Returns whether it was accepted.
     */
    method Exec(edits: seq<Edit>, ending: Ending) returns (accepted: bool)
      requires Valid()
      modifies this, Footprint(layers)
      ensures Valid()
      ensures var s := AfterEdits(Fails(layers), old(State()), edits);
        && accepted == ending.OkButton?
        && value == s.value && previewChecked == s.checked
        && Opacities(layers)
           == if ending.CancelButton? then AfterCancel(Fails(layers), Snapshot(), s) else s.opacities
    {
      var i := 0;
      while i < |edits|
        invariant 0 <= i <= |edits|
        invariant Valid()
        invariant State() == AfterEdits(Fails(layers), old(State()), edits[..i])
      {
        assert edits[..i + 1][..i] == edits[..i];
        match edits[i] {
          case Slide(v) => SetValue(v);
          case Toggle => TogglePreview();
        }
        i := i + 1;
      }
      assert edits[..i] == edits;
      match ending
      case OkButton =>
        accepted := true;
      case CancelButton =>
        Cancel();
        accepted := false;
      case Dismissed =>
        accepted := false;
    }
  }
}
