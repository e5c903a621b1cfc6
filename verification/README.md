# BongoCat KeyCounter: a Dafny model of the key counter's core

The overlay counts presses of two user-chosen trigger keys (or mouse buttons)
for two roles, `key1` and `key2`. This project models the parts of `app.py`
that carry logic, and proves properties about them:

- **Token normalisation** (`Normalize`). `GlobalKeyListener._norm_key` turns a keyboard key into a
  lower-case token. Its `char` comes first, then its `name`, then a table of fifteen numeric-keypad
  virtual-key codes. Anything else gives no token. `_norm_mouse` gives the five tokens
  `mouse_left`, `mouse_right`, `mouse_middle`, `mouse4` and `mouse5`. The probed key object is a
  record of three optional fields. The mouse button is a tagged type.
- **Press de-duplication** (`Listener`). The callbacks `on_kb_press`, `on_kb_release` and
  `on_ms_click` filter input against the watch-set. They keep a set of tokens that are down, so a
  token is reported pressed at most once between releases. Releases of a watched token are always
  reported. The class `GlobalKeyListener` holds the two sets. Its methods are proved against the
  pure rules `Press`, `Release` and `Step`, and trace lemmas are proved about those rules.
- **Cooldown counter** (`Counter`). `Window._on_global_key_down` fires a role only when the role's
  delay has passed since its last accepted fire. A fire adds one to the count, stamps the time and
  shows the role's background. `_on_global_key_up` shows the idle background again. The classes
  `Window` and `Canvas` hold this state. `Window.OnGlobalKeyDown` and `Window.OnGlobalKeyUp` are
  proved against the pure `KeyDown` and `KeyUp`; `Canvas.SetBg` and `Canvas.Increment` state their
  own effect on the canvas fields. The window and the canvas share one counts dictionary, so the counts live only in
  `Canvas.counts`. The clock reading is a parameter `now`. Times and delays are `real`.
- **Wiring** (`Pipeline`). The listener's signals are delivered to the window.
- **Configuration repair** (`Config`). This is the pure part of `load_config`. The keys are
  validated and lower-cased. Counts in the old shape are migrated. Delays get a default and are
  clamped. A flag says whether the file must be rewritten. The keys are lower-cased before the
  old-shape counts are looked up under them (app.py:66, 75-76). So counts stored under upper-case
  trigger strings are not found: `{"keys": ["Q", "E"], "counts": {"Q": 3, "E": 4}}` loads with both
  counts 0, and the file is rewritten with the zeros (`Config.UpperCaseLegacyCountsLost`). Counts
  carry over only when they are stored under the lower-case trigger strings.

Roles are matched by plain string equality against the two configured keys. A key-up of either
configured key always shows the idle background again, whether or not a role fired. Holding a key
counts once because the listener suppresses repeated presses until the key is released
(`Pipeline.HeldKeyNotRecounted`).

## Model

| member | source | states |
|---|---|---|
| `Text.LowerIdempotent` | app.py:66 | lower-casing a string twice gives the same as lower-casing it once |
| `Normalize.KeypadDomain` | app.py:162-169 | exactly the codes 96–107 and 109–111 have a keypad token |
| `Normalize.KeypadTokens` | app.py:162-167 | the fifteen keypad tokens are pairwise distinct, non-empty and lower-case |
| `Normalize.NormKey` | app.py:153-171 | a non-empty char gives its lower-cased form, whatever name and vk hold; otherwise a non-empty name gives its lower-cased form; otherwise only a keypad code gives a token; the result is None exactly when none of the three applies |
| `Normalize.NormKeyToken` | app.py:153-171 | every token produced is non-empty (truthy) and lower-case |
| `Normalize.NormKeyIdempotent` | app.py:153-171 | feeding a produced token back in as a key name gives the same token |
| `Normalize.NormMouse` | app.py:173-179 | left, right, middle, x1 and x2 give non-empty lower-case tokens; every other button gives None |
| `Normalize.NormMouseInjective` | app.py:173-179 | distinct buttons give distinct tokens |
| `Listener.Press` | app.py:182-185 | a press emits `Pressed(k)` exactly when k is a non-empty watched token not yet down, and then puts k down; otherwise nothing changes |
| `Listener.Release` | app.py:187-190 | a release emits `Released(k)` exactly when k is a non-empty watched token, down or not, and takes k out of the down-set; otherwise nothing changes |
| `Listener.Step` | app.py:181-200 | a keyboard press or release, or a mouse click, is `Press` or `Release` of the normalised token: the keyboard goes through `NormKey`, the mouse through `NormMouse`, and a mouse click's pressed flag picks `Press` or `Release` |
| `Listener.StepShape` | app.py:181-200 | each keyboard or mouse callback either does nothing, or emits a press of a watched token that was up and adds it, or emits a release of a watched token and removes it |
| `Listener.PressTwice` | app.py:184-185 | a second press without a release emits nothing and changes nothing |
| `Listener.RunAlternates` | app.py:181-200 | over any sequence of raw inputs, the emitted events are consistent with the down-set, the down-set stays inside the watch-set, and only watched tokens are emitted |
| `Listener.NoDoublePress` | app.py:184-190 | in a consistent event stream, between two presses of a token there is a release of it |
| `Listener.RunNoDoublePress` | app.py:181-200 | a listener that starts with nothing down never reports two presses of a token without a release between them |
| `Listener.GlobalKeyListener.constructor` | app.py:146-149 | the watch-set is the set of lower-cased configured keys and nothing is down |
| `Listener.GlobalKeyListener.OnKbPress` | app.py:182-185 | updates the down-set and returns the event as `Press` on the normalised key says; keeps the down-set inside the watch-set |
| `Listener.GlobalKeyListener.OnKbRelease` | app.py:187-190 | updates the down-set and returns the event as `Release` on the normalised key says; keeps the down-set inside the watch-set |
| `Listener.GlobalKeyListener.OnMsClick` | app.py:192-200 | a mouse press or release behaves as `Press` or `Release` on the normalised button |
| `Config.Max0` | app.py:85-86 | the clamped delay is non-negative, at least the input, and equal to the input or 0.0 |
| `Config.LoweredKeys` | app.py:66 | takes at most the first two entries, each lower-cased |
| `Config.Repair` | app.py:66-89 | always two distinct lower-case keys: the first two entries lower-cased if they are two and differ, else q and e; counts kept when both key1 and key2 are present, else migrated from the entries named by the keys (default 0); delays are the given value or 2.5, clamped at 0.0; `changed` holds exactly when the keys or the counts were repaired or the delay field was missing |
| `Config.RepairIdempotent` | app.py:66-99 | repairing what a repair wrote back gives the same record with `changed` false |
| `Config.MigrateLegacyCounts` | app.py:70-78 | for two distinct lower-case trigger strings other than key1/key2, counts keyed by those strings become key1/key2 counts with the same numbers, and the file is rewritten |
| `Config.UpperCaseLegacyCountsLost` | app.py:66-78 | counts keyed by upper-case trigger strings are looked up under the lower-cased keys, so they load as 0 and the file is rewritten |
| `Config.RepairEmpty` | app.py:45-89 | an empty configuration repairs to the built-in defaults and asks for a rewrite |
| `Counter.RoleOf` | app.py:338-347 | a token equal to the first key drives key1; one equal only to the second key drives key2 |
| `Counter.KeyDown` | app.py:336-354 | at most one role fires; the fired role's count rises by exactly one, its stamp becomes now and the background shows that role; the other role is untouched; no other count entry changes; a token that matches no key, or comes inside the cooldown, changes nothing |
| `Counter.KeyUp` | app.py:356-359 | either configured key brings back the idle background (3); counts and stamps never change |
| `Counter.ApplyRole` | app.py:336-359 | one signal changes a role's count (by one) and stamp (to now) only when it fires that role |
| `Counter.RunCount` | app.py:340-341 | after any signal sequence, a role's count equals its initial count plus the number of its accepted fires |
| `Counter.RunSpacing` | app.py:340-342 | each accepted fire of a role is at least the role's delay after the previous one, and the first is at least the delay after the initial stamp |
| `Counter.SpacedGaps` | app.py:340-342 | the spacing, stated for every pair of neighbouring fire times |
| `Counter.FreshWindowFires` | app.py:311-342 | with stamps starting at 0.0, the first fire of a role needs now ≥ delay, and later fires are at least the delay apart |
| `Counter.Canvas.constructor` | app.py:220-227 | the canvas takes the keys and the counts dictionary and shows the idle background |
| `Counter.Canvas.SetBg` | app.py:249-251 | the background becomes the given state |
| `Counter.Canvas.Increment` | app.py:253-255 | the entry rises by one (a missing entry counts as 0) and no other entry changes |
| `Counter.Window.constructor` | app.py:307-313 | the window takes the loaded keys, counts and delays, with both stamps at 0.0 and the idle background |
| `Counter.Window.OnGlobalKeyDown` | app.py:336-354 | the new window state is `KeyDown` of the old state |
| `Counter.Window.OnGlobalKeyUp` | app.py:356-359 | the new window state is `KeyUp` of the old state |
| `Pipeline.Deliver` | app.py:318-319 | a press reaches the key-down handler (`KeyDown`), a release the key-up handler (`KeyUp`), and no event leaves the window state alone |
| `Pipeline.HeldKeyNotRecounted` | app.py:182-200 | while a role's key stays down and no input releases it, the role's count does not change, however many presses arrive |

## Left out

- Rendering is not modelled: `paintEvent`, `load_pixmap`, `make_icon_pixmap`, the pixmaps and fonts, `update()`, and the drag handlers. The GUI parts of the `Canvas` and `Window` constructors are left out too. Only their state fields are kept.
- File I/O is not modelled. This covers the missing-file and parse-error branches of `load_config` (app.py:53-64), which return the defaults. It also covers the writes in `load_config`, `save_config`, the saves after each accepted fire and on close, `ensure_user_skill_icons`, `resource_path`, `app_dir` and `skill_path`.
- Threads are not modelled: `QThread`, the pynput listener setup and `join` in `run`, `stop`, `wait`, and cross-thread signal delivery. The callbacks are modelled as plain sequential calls.
- `time.monotonic()` is not modelled. Its reading is the parameter `now`.
- `main` and the Windows `ctypes` call are not modelled.
- The mouse position arguments of `on_ms_click` are dropped because the code never uses them.
- Text.Lower maps only the ASCII letters A–Z. Python's `str.lower` also maps non-ASCII letters.
- Floating-point delays and times are modelled as exact reals. Rounding is not captured.
- The loader's `str()`, `int()` and `float()` conversions are not modelled. The parsed configuration is a typed record, so wrongly typed JSON values (and the exceptions they raise) are outside the model.
- Normalize.NormMouse: the source recognises x1 and x2 by the suffix of the button's string form. The model uses the constructors `X1` and `X2` for those two buttons and `Other` for every other button.
