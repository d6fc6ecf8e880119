/**
 * The plugin's toolbar action: read the last percent and preview flag from
 * the settings, pick the target layers, run the dialog, and on OK save both
 * settings and write the final opacity to every target.
 */
module Plugin {
  import opened Layers
  import opened Dialog

  /** A stored setting; the plugin keeps one integer and one boolean. */
  datatype Setting = IntSetting(i: int) | BoolSetting(b: bool)

  const TransparencyKey: string := "geoObserver/transparency"
  const PreviewKey: string := "geoObserver/previewEnabled"
  const DefaultTransparency: int := 50
  const DefaultPreview: bool := false

  /** Reads an integer setting, falling back to `default` when there is none. */
  function ReadInt(entries: map<string, Setting>, key: string, default: int): (r: int)
    ensures key in entries && entries[key].IntSetting? ==> r == entries[key].i
    ensures key !in entries ==> r == default
  {
    if key in entries && entries[key].IntSetting? then entries[key].i else default
  }

  /** Reads a boolean setting, falling back to `default` when there is none. */
  function ReadBool(entries: map<string, Setting>, key: string, default: bool): (r: bool)
    ensures key in entries && entries[key].BoolSetting? ==> r == entries[key].b
    ensures key !in entries ==> r == default
  {
    if key in entries && entries[key].BoolSetting? then entries[key].b else default
  }

  /** The persistent settings store, written by key. */
  class Settings {
    var entries: map<string, Setting>

    constructor (entries: map<string, Setting>)
      ensures this.entries == entries
    {
      this.entries := entries;
    }

    method SetValue(key: string, value: Setting)
      modifies this
      ensures entries == old(entries)[key := value]
    {
      entries := entries[key := value];
    }
  }

  /**
   * The layers to work on: none when the project has no layers (the run
   * stops there), otherwise the selected layers when there are any, else
   * every layer of the project. A chosen target list is never empty.
   */
  function SelectTargets(project: seq<Layer>, selected: seq<Layer>): (r: Option<seq<Layer>>)
    ensures r.None? <==> project == []
    ensures r.Some? ==> r.value != []
    ensures r.Some? && selected != [] ==> r.value == selected
    ensures r.Some? && selected == [] ==> r.value == project
  {
    if project == [] then None
    else if selected != [] then Some(selected)
    else Some(project)
  }

  /** What the message bar reports at the end of a run. */
  datatype Outcome =
    | NoLayers                                                  // the warning: no layers in the project
    | Rejected                                                  // the dialog was not accepted
    | Applied(count: nat, percent: int, opacity: real, preview: bool)  // the success message

  /**
   * What one dialog session over targets with opacities `before` and
   * failure flags `fails` leaves behind, given the stored settings
   * `entries` and what the user does: on OK the final percent and the
   * checkbox state are saved and every target that takes the write shows the
   * final opacity, whatever was previewed; on Cancel nothing is saved and the
   * Cancel button's restore decides the opacities; on Esc or close nothing is
   * saved and the last preview stays.
   */
  ghost predicate SessionEffect(
    fails: seq<bool>, before: seq<real>, entries: map<string, Setting>,
    edits: seq<Edit>, ending: Ending,
    after: seq<real>, entries': map<string, Setting>, outcome: Outcome)
    requires |before| == |fails|
  {
    var s := AfterEdits(fails,
                        View(before,
                             Clamp(ReadInt(entries, TransparencyKey, DefaultTransparency)),
                             ReadBool(entries, PreviewKey, DefaultPreview)),
                        edits);
    match ending
    case OkButton =>
      && outcome == Applied(|fails|, s.value, Opacity(s.value), s.checked)
      && entries' == entries[TransparencyKey := IntSetting(s.value)][PreviewKey := BoolSetting(s.checked)]
      && after == Broadcast(before, fails, Opacity(s.value))
    case CancelButton =>
      && outcome == Rejected
      && entries' == entries
      && after == AfterCancel(fails, before, s)
      && (s.checked ==> after == before)
    case Dismissed =>
      && outcome == Rejected
      && entries' == entries
      && after == s.opacities
  }

  /**
   * Two layers at 0.2 and 0.8, last percent 50, preview off: moving to 30 %
   * and pressing OK saves 30 and "off", writes 0.7 to both layers and reports
   * two layers at 30 % and opacity 0.7.
   */
  lemma CommitScenario(after: seq<real>, entries': map<string, Setting>, outcome: Outcome)
    requires SessionEffect([false, false], [0.2, 0.8],
                           map[TransparencyKey := IntSetting(50), PreviewKey := BoolSetting(false)],
                           [Slide(30)], OkButton, after, entries', outcome)
    ensures outcome == Applied(2, 30, 0.7, false)
    ensures after == [0.7, 0.7]
    ensures entries' == map[TransparencyKey := IntSetting(30), PreviewKey := BoolSetting(false)]
  {
  }

  /**
   * What happens after OK: save the percent and the checkbox state, then
   * write the final opacity to every target, best effort, whether or not the
   * preview was on.
   */
  method Commit(targets: seq<Layer>, settings: Settings, percent: int, previewEnabled: bool)
    returns (outcome: Outcome)
    modifies settings, Footprint(targets)
    ensures settings.entries
         == old(settings.entries)[TransparencyKey := IntSetting(percent)][PreviewKey := BoolSetting(previewEnabled)]
    ensures Opacities(targets) == Broadcast(old(Opacities(targets)), Fails(targets), Opacity(percent))
    ensures outcome == Applied(|targets|, percent, Opacity(percent), previewEnabled)
  {
    settings.SetValue(TransparencyKey, IntSetting(percent));
    settings.SetValue(PreviewKey, BoolSetting(previewEnabled));
    var opacity := Opacity(percent);
    SetAll(targets, opacity);
    outcome := Applied(|targets|, percent, opacity, previewEnabled);
  }

  /**
   * The part of a run after the targets are chosen: read the last percent and
   * preview flag, run the dialog over `targets`, and on OK save both settings
   * and write the final opacity to every target.
   */
  method Session(targets: seq<Layer>, settings: Settings, edits: seq<Edit>, ending: Ending)
    returns (outcome: Outcome)
    modifies settings, Footprint(targets)
    ensures SessionEffect(Fails(targets), old(Opacities(targets)), old(settings.entries), edits, ending,
                          Opacities(targets), settings.entries, outcome)
  {
    var lastValue := ReadInt(settings.entries, TransparencyKey, DefaultTransparency);
    var lastPreview := ReadBool(settings.entries, PreviewKey, DefaultPreview);
    ghost var before := Opacities(targets);
    ghost var fails := Fails(targets);

    var dlg := new TransparencyDialog(lastValue, targets, lastPreview);
    ghost var start := dlg.State();
    assert start == View(before, Clamp(lastValue), lastPreview);
    var accepted := dlg.Exec(edits, ending);
    ghost var s := AfterEdits(fails, start, edits);
    assert dlg.Snapshot() == before;
    assert Opacities(targets) == if ending.CancelButton? then AfterCancel(fails, before, s) else s.opacities;
    if !accepted {
      CancelRestoresSnapshot(fails, before, lastValue, lastPreview, edits);
      assert SessionEffect(fails, before, old(settings.entries), edits, ending,
                           Opacities(targets), settings.entries, Rejected);
      return Rejected;
    }

    var percent := dlg.Value();
    var previewEnabled := dlg.PreviewEnabled();
    AcceptOverridesPreview(fails, before, lastValue, lastPreview, edits, Opacity(percent));
    outcome := Commit(targets, settings, percent, previewEnabled);
  }

  /**
   * One run of the toolbar action. The host's project layers, the layers
   * selected in the layer tree, the settings store and what the user does in
   * the dialog are parameters.
   */
  method Run(project: seq<Layer>, selected: seq<Layer>, settings: Settings,
             edits: seq<Edit>, ending: Ending)
    returns (outcome: Outcome)
    modifies settings, Footprint(project), Footprint(selected)
    ensures project == [] ==>
      && outcome == NoLayers
      && settings.entries == old(settings.entries)
      && (forall l :: l in selected ==> l.opacity == old(l.opacity))
    ensures project != [] ==>
      var targets := SelectTargets(project, selected).value;
      && (forall l :: l in project && l !in targets ==> l.opacity == old(l.opacity))
      && SessionEffect(Fails(targets), old(Opacities(targets)), old(settings.entries), edits, ending,
                       Opacities(targets), settings.entries, outcome)
  {
    var chosen := SelectTargets(project, selected);
    if chosen.None? {
      return NoLayers;
    }
    outcome := Session(chosen.value, settings, edits, ending);
  }
}
