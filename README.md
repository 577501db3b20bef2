# PygameGUI window state, modelled in Dafny

PygameGUI is a thin layer over pygame. Its one piece of self-contained state
logic is modelled and verified here:

- **`WindowParams`** (`gui/window.py`): the window geometry, kept as three
  fields — `_window_width`, `_window_height` and the pair `_window_size` —
  behind property getters and setters. Each setter writes one view and
  re-derives the others, so, as long as `window_size` is only ever given a
  pair of integers, `_window_size == (_window_width, _window_height)` holds
  after every setter call, in any order. The `window_root` setter
  stores the new root and mirrors the same reference into the displayer's
  `main`.
- **`config_obj`** (`gui/defutils.py`): assigns each keyword argument to the
  attribute of the same name on a target object, in place, and returns
  nothing.

`window.dfy` (module `Window`) holds the geometry as a value (`Geometry`,
`Synced`, `Apply`, `Run`, `LastWidth`, `LastHeight`), the lemmas about it,
the `Displayer` and `WindowParams` classes whose setter methods are tied to
`Apply`, and five small client methods that run the setters:
`GeometryWalkthrough`, `WidthReadBackAsWritten`, `WidthReadBackIntended` and
`RootMirrorWalkthrough` on fresh windows, `SetWidthThenReadAsWritten` on any
window. `defutils.dfy` (module `DefUtils`) holds `config_obj` as the method
`ConfigObj`, a loop over the keyword pairs that updates the target's
attribute map one entry at a time, specified by the function `Assigned`.

Modelling choices:

- Python's class-level defaults (`_window_width = 500`, `_window_height = 500`,
  `_window_size` built from those two, `_display = None`,
  `_window_root = None`) become the initial values set by the
  `WindowParams` constructor; nothing in the modelled code mutates the class
  attributes themselves.
- Python integers are unbounded, so widths and heights are `int`. The size is
  a pair of integers, as the field's annotation `tuple[int, int]` declares
  (gui/window.py:23); the setter's own parameter annotation is `int`.
- The root drawable and the displayer's `main` are references (`object?`),
  so "forwards the same reference" is reference equality.
- The `window_root` setter first stores the root, then writes
  `self._display.main`. With `_display` still `None` (its default) the second
  step raises an attribute error after the root has been stored. The method
  `SetWindowRoot` models that path (its `raised` result) instead of requiring
  a displayer, so the partial update is part of the model.
- The `window_root` and `display` getters are the plain reads `WindowRoot`
  and `Display`; what they return after the setter is stated by
  `SetWindowRoot`.
- A target object is a map from attribute name to value (`Target.attrs`);
  keyword arguments are the sequence of (name, value) pairs in call order.
  Python never passes the same keyword name twice in one call, which
  `ConfigObj` takes as its precondition `DistinctNames`.

## Model

| member | source | states |
|---|---|---|
| `Window.Apply` | gui/window.py:33-55 | each of the three setters writes its own view and recomputes the others, so the result has `size == (width, height)` whatever state it started from; width writes keep the height, height writes keep the width, size writes store the given pair |
| `Window.DefaultsSynced` | gui/window.py:21-23 | the class defaults satisfy `size == (width, height) == (500, 500)` |
| `Window.RunKeepsSynced` | gui/window.py:33-55 | from a synced state, any sequence of setter calls in any order leaves the geometry synced |
| `Window.RunIsLastWrite` | gui/window.py:33-55 | after any sequence of setter calls the width is the last width written (by `window_width` or `window_size`), the height the last height written, and the size their pair once any setter has run |
| `Window.ApplyIdempotent` | gui/window.py:33-55 | applying the same setter with the same value twice gives the state of applying it once |
| `Window.Displayer.constructor` | gui/window.py:71-72 | a displayer starts with no root drawable (`main` is `None`) |
| `Window.WindowParams.constructor` | gui/window.py:21-27 | a window starts at 500 by 500 with the size synced, no displayer and no root |
| `Window.WindowParams.WindowWidth` | gui/window.py:29-31 | the `window_width` getter as written returns the height: on a synced window it is the size's second component, and it equals the stored width exactly when the window is square |
| `Window.WindowParams.IntendedWindowWidth` | gui/window.py:29-36 | the corrected width getter: on a synced window it is the size's first component, and after `SetWindowWidth(w)` it returns `w` |
| `Window.WindowParams.WindowHeight` | gui/window.py:38-40 | the `window_height` getter agrees with the size's second component on a synced window |
| `Window.WindowParams.WindowSize` | gui/window.py:47-49 | the `window_size` getter is `(width, height)` on a synced window |
| `Window.WindowParams.SetWindowWidth` | gui/window.py:33-36 | sets `width = w` and `size = (w, old height)`; height, root and displayer are unchanged; the window is synced afterwards from any state |
| `Window.WindowParams.SetWindowHeight` | gui/window.py:42-45 | sets `height = h` and `size = (old width, h)`; width, root and displayer are unchanged; the height getter returns `h`; synced afterwards |
| `Window.WindowParams.SetWindowSize` | gui/window.py:51-55 | sets `size = (w, h)`, `width = w`, `height = h`; root and displayer unchanged; the size getter returns `(w, h)`; synced afterwards |
| `Window.WindowParams.SetWindowRoot` | gui/window.py:57-68 | also covers the `window_root` and `display` getters (`WindowRoot`, `Display`), which are plain reads: stores the new root (the root getter returns it) and, when a displayer is attached, sets its `main` to the same reference; with no displayer it raises after storing the root; the geometry and the displayer reference (the `display` getter) are unchanged |
| `Window.GeometryWalkthrough` | gui/window.py:21-55 | from the defaults, width 800 gives size (800, 500), then height 600 gives (800, 600), then size (300, 300) gives width 300 and height 300 |
| `Window.WidthReadBackAsWritten` | gui/window.py:29-36 | on a default window, setting the width to `w` and reading it back through the getter gives 500, so any `w` other than 500 is not read back |
| `Window.WidthReadBackIntended` | gui/window.py:29-36 | the same read-back through the corrected getter gives `w` |
| `Window.SetWidthThenReadAsWritten` | gui/window.py:29-36 | on any window, setting the width to `w` and reading it back through the getter as written gives the old height, which is `w` exactly when `w` equals that height; afterwards the width is `w`, the size `(w, old height)`, and height, root and displayer are unchanged |
| `Window.RootMirrorWalkthrough` | gui/window.py:57-64 | on a default window (no displayer) setting the root raises; once a displayer is attached, setting the root does not raise and mirrors the same reference into its `main`, and the geometry stays at the defaults |
| `DefUtils.ConfigObj` | gui/defutils.py:6-12 | assigns the keyword pairs in order and returns nothing; afterwards the attributes are `Assigned(old attributes, kwargs)`, the attribute names are the old ones plus the named ones, every named attribute holds its value and every other attribute is unchanged |
| `DefUtils.NamesOfLast` | gui/defutils.py:11 | the names of a keyword list are those of all but its last pair plus the last pair's name |
| `DefUtils.AssignedKeys` | gui/defutils.py:11-12 | assignment adds exactly the named attributes to those already present and removes none |
| `DefUtils.AssignedNamed` | gui/defutils.py:11-12 | with distinct keyword names, every named attribute ends up holding the value passed for it |
| `DefUtils.AssignedOthers` | gui/defutils.py:11-12 | an attribute not named by the keyword arguments is present afterwards exactly when it was before, with the same value |
| `DefUtils.AssignedNothing` | gui/defutils.py:11 | with no keyword arguments the target is left exactly as it was |
| `DefUtils.AssignedTwice` | gui/defutils.py:11-12 | applying the same keyword arguments twice gives the same attributes as applying them once |

## Left out

- `WindowDisplayer.make_window` (gui/window.py:95-99): only calls pygame's `set_mode`, `set_caption` and `set_icon`, whose behaviour is outside this code.
- `WindowDisplayer.show` (gui/window.py:101-104): the `fill` and `main._draw` calls are pygame rendering.
- `WindowDisplayer.__init__` (gui/window.py:81-93): it is `config_obj` on the new object followed by `make_window`; `WindowDisplayer` does not inherit `WindowParams`, so no geometry setter runs there. `ConfigObj` models its first step.
- `alive`, `window_title`, `window_icon` and `background_color` (gui/window.py:17-19, 73): class-level constants with no behaviour in the modelled code.
- `ConfigObj`: a keyword pair named `target` is accepted by the model, although Python can never pass one, since `target` is the function's own parameter (gui/defutils.py:6) and such a call fails before the loop runs; no stated property depends on it.
- `ConfigObj`: Python's `setattr` can trigger descriptors or property setters on the target; the model stores every value as a plain attribute.
- `Window.WindowParams.SetWindowSize`: only a pair of integers, as the field's annotation `tuple[int, int]` declares (gui/window.py:23), is modelled. The setter (gui/window.py:51-55) stores whatever value it is given, so any other value is not modelled: a list or other sequence (stored by reference, never equal to the tuple `(width, height)`, and still changeable by the caller afterwards), or a tuple of another length (an index error, or a size that no longer matches the two fields). For such values the invariant does not hold in the source.
- The event dispatcher, the run loop and its lifecycle hooks: they are not part of this model; their source files are not among the modelled ones and would drive pygame event polling.

## Findings

| source | as written | input that shows it | evidently intended | confidence | as-written member | corrected member |
|---|---|---|---|---|---|---|
| gui/window.py:30-31 | the `window_width` getter returns `self._window_height` | any window after `window_width = w` with `w` different from its height, e.g. a default window (500 by 500) after `window_width = 800`: the getter reads 500 | return `self._window_width` | high; not executed, shown by the verified contracts | `Window.SetWidthThenReadAsWritten` | `Window.WidthReadBackIntended` |
