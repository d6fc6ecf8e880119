# Set Layer Transparency — a Dafny model

This project models the SetLayerTransparency QGIS plugin. The plugin's toolbar
action picks the target layers: the layers selected in the layer tree, or
every layer of the project when none is selected. It then opens a small modal
dialog with a transparency percent, a slider and a spin box kept equal, and a
live-preview checkbox. Each value change writes the derived opacity
`1 - percent/100` to every target while the box is checked. Cancel restores the
opacities captured when the dialog was built, but only when the box is checked
at that moment. OK saves the percent and the checkbox state and writes the
final opacity to every target. Every per-layer write is best effort: a layer
that raises is logged and skipped, and the loop goes on. This holds as long as
the error handler's own lookup of the layer's name does not raise as well
(see "## Left out").

Files and modules:

- `layers.dfy`, module `Layers`: the `Layer` object (a mutable `opacity` and a
  `fails` flag for a layer whose `setOpacity` raises). `Written` is the
  specification of a best-effort write loop over the targets. `SetAll` is that
  loop, shared by the live preview and the final apply.
- `dialog.dfy`, module `Dialog`: the percent-to-opacity rule and the slider's
  clamping. The pure session model: `View` (target opacities, percent,
  checkbox), `AfterEdit`/`AfterEdits` (user actions) and `AfterCancel`. Then
  lemmas about that model, and the class `TransparencyDialog`, whose methods are
  proved to follow it.
- `plugin.dfy`, module `Plugin`: the settings store, target selection, and the
  `run` driver (`Run`, `Session`, `Commit`). `SessionEffect` states what one
  run leaves behind.

Some host behaviour is not in the Python file but decides what it does, so the
model states it:

- The slider and the spin box have range 0..100 and clamp any value set on
  them. That includes a stored setting outside the range.
- They report a change only when the value actually changes. Setting the
  current value again writes no preview.
- Checking the box writes nothing. Only the next value change previews.
- Cancel's restore is wired to the button box's `rejected` signal. Closing the
  dialog with Esc or the window's close button calls `reject()` alone, so the
  restore does not run and the last preview stays (`Ending.Dismissed`).
- The restore loop walks the target list instead of the dictionary. The
  dictionary's keys are exactly the distinct targets, and the values written
  are the same, so the resulting opacities are the same.

## Model

| member | source | states |
|---|---|---|
| `Layers.Layer.SetOpacity` | SetLayerTransparency.py:93-94 | A layer whose write raises keeps its opacity; any other layer takes the new value; the result says which happened. |
| `Layers.Written` | SetLayerTransparency.py:91-97 | After a best-effort write loop, every target that does not raise holds its wanted opacity and every target that raises keeps its current one, wherever it stands in the list. |
| `Layers.WrittenIdempotent` | SetLayerTransparency.py:102-108 | Running the same write loop a second time changes nothing. |
| `Layers.WrittenOverwrites` | SetLayerTransparency.py:89-97 | Of two write loops in a row only the second shows. |
| `Layers.SetAll` | SetLayerTransparency.py:91-97 | The per-layer loop writes one opacity to every target, skipping a raising layer without stopping. It changes no layer outside the target list. |
| `Dialog.Clamp` | SetLayerTransparency.py:36-44 | The slider and spin box value always lies in [0,100]. A value in range is kept; one below or above becomes 0 or 100. |
| `Dialog.Opacity` | SetLayerTransparency.py:90 | For a percent in [0,100] the opacity `1 - percent/100` lies in [0,1]. Percent 0 gives 1, 100 gives 0 and 50 gives 0.5. |
| `Dialog.AfterEdit` | SetLayerTransparency.py:85-97 | A value change with the box unchecked leaves every opacity as it was. A slider action to the current value changes nothing at all, checked or not. With the box checked, a real change sets every non-raising target to the new percent's opacity and leaves raising ones alone. A checkbox click changes no opacity and no percent. |
| `Dialog.AfterEdits` | SetLayerTransparency.py:48-51 | Over any sequence of user actions the percent stays in [0,100]. It equals the clamped target of the last slider action, whatever checkbox clicks follow it, and the starting percent when there is no slider action. |
| `Dialog.AfterCancel` | SetLayerTransparency.py:99-108 | With the box checked at Cancel, every non-raising target gets its snapshot back. With it unchecked, no opacity changes. |
| `Dialog.EditsShowOnePreview` | SetLayerTransparency.py:85-97 | While the dialog is open, every target shows its snapshot opacity or the opacity of `LastPreview`, a percent in [0,100] that is the same for every target that took the write; a raising target keeps its snapshot. |
| `Dialog.NoPreviewKeepsShown` | SetLayerTransparency.py:85-87 | When no action wrote a preview (box unchecked or value unchanged), `LastPreview` is what was shown before the actions. |
| `Dialog.MostRecentPreviewShown` | SetLayerTransparency.py:89-97 | `LastPreview` is the clamped percent of the last action that wrote a preview: earlier previews are overwritten.
| `Dialog.CancelRestoresSnapshot` | SetLayerTransparency.py:99-108 | Cancel with the box checked gives every target back exactly its snapshot opacity, whatever was previewed and toggled before. |
| `Dialog.CancelIdempotent` | SetLayerTransparency.py:99-108 | A second Cancel after a first writes nothing new. |
| `Dialog.AcceptOverridesPreview` | SetLayerTransparency.py:168-176 | The final write after OK gives the same opacities as writing the final percent over the snapshot, whether or not a preview ever ran. |
| `Dialog.UncheckedCancelKeepsPreview` | SetLayerTransparency.py:99-101 | Preview at 30 %, uncheck, then Cancel: the layers stay at 0.7, because the box is read at Cancel time. |
| `Dialog.PreviewScenario` | SetLayerTransparency.py:85-108 | Two layers at 0.2 and 0.8 with preview on: 30 % shows 0.7 on both, 80 % shows 0.2 on both, and Cancel gives 0.2 and 0.8 back. |
| `Dialog.NoPreviewScenario` | SetLayerTransparency.py:85-87 | With preview off, 30 % leaves 0.2 and 0.8. The final write of 30 % gives 0.7 on both. |
| `Dialog.TransparencyDialog.constructor` | SetLayerTransparency.py:21-27 | Building the dialog writes nothing. The snapshot holds one entry per target, equal to that layer's opacity at that moment. The percent is the clamped initial value and the box starts in its given state. |
| `Dialog.TransparencyDialog.Value` | SetLayerTransparency.py:110-111 | The percent handed to the driver is in [0,100]. |
| `Dialog.TransparencyDialog.PreviewEnabled` | SetLayerTransparency.py:113-114 | The preview flag handed to the driver is the checkbox's state when it is asked; after `Exec` that is the state the user's last action left. |
| `Dialog.TransparencyDialog.ApplyPreview` | SetLayerTransparency.py:89-97 | Every non-raising target gets the percent's opacity and every raising target keeps its own. |
| `Dialog.TransparencyDialog.MaybePreview` | SetLayerTransparency.py:85-87 | With the box checked now, the preview is written. With it unchecked, no opacity changes. |
| `Dialog.TransparencyDialog.SetValue` | SetLayerTransparency.py:48-51 | Setting the slider or the spin box moves the dialog and the targets exactly as `AfterEdit` says, keeping the percent in range. |
| `Dialog.TransparencyDialog.TogglePreview` | SetLayerTransparency.py:56-58 | Clicking the checkbox flips it and changes no layer. |
| `Dialog.TransparencyDialog.Cancel` | SetLayerTransparency.py:99-108 | The Cancel button's restore leaves the target opacities `AfterCancel` gives for the snapshot and the current state. |
| `Dialog.TransparencyDialog.Exec` | SetLayerTransparency.py:61-68 | After the user's actions the dialog holds the state `AfterEdits` gives. It reports accepted exactly on OK. Cancel runs the restore; Esc or close leaves the last preview. |
| `Plugin.ReadInt` | SetLayerTransparency.py:143 | The stored percent is read, falling back to 50 when there is none. |
| `Plugin.ReadBool` | SetLayerTransparency.py:144 | The stored preview flag is read, falling back to false when there is none. |
| `Plugin.Settings.SetValue` | SetLayerTransparency.py:164-165 | Writing a setting changes that key and no other. |
| `Plugin.SelectTargets` | SetLayerTransparency.py:146-152 | There are no targets exactly when the project has no layers. Otherwise the targets are the selected layers when any are selected, else all layers, and are never empty. |
| `Plugin.Commit` | SetLayerTransparency.py:160-176 | After OK, both settings are saved and every non-raising target shows the final opacity. The report holds the target count, percent, opacity and preview flag. |
| `Plugin.Session` | SetLayerTransparency.py:154-176 | A dialog run over the targets leaves what `SessionEffect` says. On OK the settings are saved and the final opacity is written over any preview. On Cancel nothing is saved and, with the box checked, the snapshot is back. On Esc or close nothing is saved. |
| `Plugin.Run` | SetLayerTransparency.py:141-182 | With no project layers, the run writes no setting, changes no layer and reports the warning. Otherwise it ends as `Session` on the chosen targets, and layers that are not targets are untouched. |
| `Plugin.CommitScenario` | SetLayerTransparency.py:157-182 | Layers at 0.2 and 0.8, last percent 50, preview off, 30 % then OK: the settings become 30 and off, both layers show 0.7, and the report says two layers at 30 %, opacity 0.7. |

## Left out

- Qt widgets, layout, the percent label and the info label. The slider, the spin box and their signal wiring are one `value` with the widgets' clamping and change-only reporting.
- The toolbar and action registration (`initGui`, `unload`), the icon, and the `classFactory` entry hook in `__init__.py`. These are host UI plumbing with no logic.
- `triggerRepaint()`. A layer whose `setOpacity` succeeds and whose repaint raises counts as a layer that took the write. The model has one `fails` flag per layer, fixed for the run.
- Reading a layer's opacity for the snapshot never raises in the model.
- The `print` logging of a raising layer and the layer name lookup it does.
- Layers.SetAll: assumes the error handler's `name()` lookup never raises. In the source, a layer whose `setOpacity` and `name()` both raise (a layer deleted during the session, say) lets the second exception escape the handler. That ends the loop and leaves the later targets unwritten. The model has no such layer.
- Dialog.TransparencyDialog.Cancel: the same assumption for the restore loop. In the source such a layer ends the restore early, leaving the later targets at their previewed opacity.
- Plugin.Commit: the same assumption for the final apply. In the source such a layer ends the run after the settings were saved, with later targets unwritten and no success message.
- The message bar texts and their `.2f` formatting. The outcome only carries the data they show.
- `QSettings` file I/O and `sync()`. Settings are a map written only on OK.
- Plugin.ReadInt: QSettings' conversion of a stored value of another type is not modelled. Such a value reads as the default.
- Plugin.ReadBool: as for ReadInt, a stored value of another type reads as the default.
- IEEE floating point in `1 - value/100.0`. Opacities are exact reals.
- The host's layer API (`mapLayers`, `selectedLayers`, `opacity`, `setOpacity`). These are parameters and fields of `Layer`.
