# MetalHUDmenu settings manager, in Dafny

MetalHUDmenu is a macOS menu-bar utility. It switches on and configures the
operating system's Metal performance overlay (the HUD). It does this by setting
`MTL_HUD_*` environment variables in the user's session with
`launchctl asuser <uid> /bin/launchctl setenv|unsetenv …`. This project models
its one piece of logic, the `HUDSettingsManager` class.

- `element_list.dfy`, module `ElementList`: the two Swift collection operations
  the manager relies on. These are enumerating a `Set<String>`, in an order
  Swift does not fix, and `joined(separator:)`. `Split` is the partner of
  `Join`: for comma-free keys it recovers the list, so the `MTL_HUD_ELEMENTS`
  value names every selected element exactly once.
- `hud_settings.dfy`, module `HUDSettings`:
  - the store values (`Value`) and the six persisted settings (`Settings`);
  - the alignment table and its lookup;
  - how the initializer reads each key (`Load`);
  - the class `HUDSettingsManager`.

The class keeps these pieces of state:
- the six persisted fields;
- `openAtLogin` and `statusMessage`;
- the user-defaults store as a `map<string, Value>`;
- a ghost log of the `launchctl` arguments it has issued, without the constant
  `asuser <uid> /bin/launchctl` prefix;
- a ghost log of the calls it has made to the login-item service.

Each Swift property assignment with a `didSet` becomes one setter method. Its
`modifies` frame names exactly the fields that the assignment and its `didSet`
touch.

The class invariant `Valid()` says that the store mirrors the object:
reloading the store gives back exactly the six persisted fields. The
initializer establishes it because it loads the fields from the store and
writes nothing. Every setter preserves it. From it, `Reload` shows that a
fresh manager built from the same store has the same settings.

Two points of Swift semantics are kept:
- `didSet` runs on every assignment, even when the value does not change. So
  `SetOpenAtLogin(false)` always unregisters the login item and always writes
  `enableHUDOnBoot = false` to the store.
- `didSet` does not run during `init`. So the constructor writes nothing to the
  store and does not call the login-item service.

The manager does not enforce "enable on boot implies open at login". Only the
view greys out that toggle, so the model does not state that implication as an
invariant.

The overlay is off by default. So on a first launch, `ApplySettings` issues
only the `unsetenv` command until `hudEnabled` is switched on.
`FirstLaunchApply` shows the five commands that follow once it is switched on.

## Model

| member | source | states |
|---|---|---|
| `HUDSettings.AlignmentValue` | MetalHUDmenu/HUDSettingsManager.swift:117-119 | the result is "4" exactly when the key is not one of the nine table keys; otherwise it is one of the table's codes |
| `HUDSettings.AlignmentTable` | MetalHUDmenu/HUDSettingsManager.swift:58-68 | the code of each of the nine keys (topLeft 10, topCenter 14, topRight 12, center 30, leftCenter 26, centerRight 28, bottomRight 20, bottomCenter 22, bottomLeft 18) and "4" for every other key |
| `HUDSettings.Load` | MetalHUDmenu/HUDSettingsManager.swift:75-86 | the six values the initializer reads: each is either its default (false, {}, 0.20, 1.00, "topRight", false) or the value stored under that setting's own key, the selection being the set of the stored array |
| `HUDSettings.LoadDefaults` | MetalHUDmenu/HUDSettingsManager.swift:72-87 | a store without the six keys loads as hudEnabled false, no elements, scale 0.20, opacity 1.00, alignment "topRight", enableHUDOnBoot false |
| `HUDSettings.LoadIgnoresWrongType` | MetalHUDmenu/HUDSettingsManager.swift:75-86 | for each of the six keys, a stored value that the Foundation getter cannot convert to the setting's type (text under a Bool or Double key, an array under "alignment", text under "selectedElements") loads as the default, like a missing key |
| `HUDSettings.LoadStoredSelection` | MetalHUDmenu/HUDSettingsManager.swift:82-86 | a stored array that lists a set loads back as exactly that set, and no other setting changes |
| `HUDSettings.HUDSettingsManager.constructor` | MetalHUDmenu/HUDSettingsManager.swift:72-87 | each field comes from its key or its default, and `openAtLogin` from the login-item status; the store is left unchanged; no login-item call, no command and an empty status; the store-mirrors-fields invariant holds |
| `HUDSettings.HUDSettingsManager.SetHudEnabled` | MetalHUDmenu/HUDSettingsManager.swift:15-17 | sets the field and writes `Bool(v)` under "hudEnabled"; no other key or field changes; the invariant is kept |
| `HUDSettings.HUDSettingsManager.SetSelectedElements` | MetalHUDmenu/HUDSettingsManager.swift:19-21 | sets the field and writes under "selectedElements" an array that lists each element of the set exactly once; no other key or field changes; the invariant is kept |
| `HUDSettings.HUDSettingsManager.SetScale` | MetalHUDmenu/HUDSettingsManager.swift:23-25 | sets the field and writes `Double(v)` under "scale" only; the invariant is kept |
| `HUDSettings.HUDSettingsManager.SetOpacity` | MetalHUDmenu/HUDSettingsManager.swift:27-29 | sets the field and writes `Double(v)` under "opacity" only; the invariant is kept |
| `HUDSettings.HUDSettingsManager.SetAlignment` | MetalHUDmenu/HUDSettingsManager.swift:31-33 | sets the field and writes `Str(v)` under "alignment" only; the invariant is kept |
| `HUDSettings.HUDSettingsManager.SetEnableHUDOnBoot` | MetalHUDmenu/HUDSettingsManager.swift:35-37 | sets the field and writes `Bool(v)` under "enableHUDOnBoot" only; the invariant is kept |
| `HUDSettings.HUDSettingsManager.SetOpenAtLogin` | MetalHUDmenu/HUDSettingsManager.swift:41-50 | true records one register call and leaves enableHUDOnBoot and the store as they were; false records one unregister call and always leaves enableHUDOnBoot false, with "enableHUDOnBoot" stored false; the flag itself is never stored |
| `HUDSettings.HUDSettingsManager.ApplySettings` | MetalHUDmenu/HUDSettingsManager.swift:91-102 | when enabled, appends exactly five setenv commands (ENABLED=1, ELEMENTS=a comma-join of the selection in some order, OPACITY and SCALE formatted, ALIGNMENT=the table code), then sets the applied status; when disabled, appends exactly the single unsetenv and sets the disabled status, as `DisableHUD` does; no setting and no store entry changes |
| `HUDSettings.HUDSettingsManager.DisableHUD` | MetalHUDmenu/HUDSettingsManager.swift:104-107 | appends exactly `unsetenv MTL_HUD_ENABLED` and sets the disabled status, whatever the prior state; no setting and no store entry changes |
| `HUDSettings.HUDSettingsManager.ApplyOnBootIfNeeded` | MetalHUDmenu/HUDSettingsManager.swift:109-113 | when enableHUDOnBoot and hudEnabled both hold, has the effect of the enabled `ApplySettings`; otherwise no command is appended and the status is unchanged; no setting changes |
| `HUDSettings.HUDSettingsManager.RunLaunchctl` | MetalHUDmenu/HUDSettingsManager.swift:121-135 | appends its argument list to the command log and changes nothing else |
| `HUDSettings.Reload` | MetalHUDmenu/HUDSettingsManager.swift:72-87 | a fresh manager built from a live manager's store has the same six settings: every value assigned through the setters survives a restart |
| `HUDSettings.FirstLaunchApply` | MetalHUDmenu/HUDSettingsManager.swift:91-98 | from an empty store, switching the overlay on and applying issues ENABLED=1, ELEMENTS="", OPACITY=format(1.00), SCALE=format(0.20) and ALIGNMENT=12, then the applied status |
| `ElementList.Enumerate` | MetalHUDmenu/HUDSettingsManager.swift:19-21 | returns a list of every element of the set, each exactly once (the set's enumeration, as `Array(set)` and `joined` use it) |
| `ElementList.EnumerationLength` | MetalHUDmenu/HUDSettingsManager.swift:20 | an enumeration of a set is as long as the set is large |
| `ElementList.Join` | MetalHUDmenu/HUDSettingsManager.swift:94 | `joined(separator: ",")`: the result starts with the first part and is empty only for no parts or one empty part; `SplitJoin` proves `Split` inverts it |
| `ElementList.SplitJoin` | MetalHUDmenu/HUDSettingsManager.swift:94 | splitting a join of a non-empty list of separator-free strings gives the list back |
| `ElementList.JoinedFromEmpty` | MetalHUDmenu/HUDSettingsManager.swift:94 | the ELEMENTS value of an empty selection is "" |
| `ElementList.JoinedFromDecodes` | MetalHUDmenu/HUDSettingsManager.swift:94 | for a non-empty selection of comma-free keys, the ELEMENTS value splits into a list naming every selected key exactly once |
| `ElementList.JoinedFromPair` | MetalHUDmenu/HUDSettingsManager.swift:94 | a selection of two keys a and b yields "a,b" or "b,a" |

## Left out

- Subprocess execution: `runLaunchctl` starts `/bin/launchctl` as a process, passes the user id from `getuid()`, waits for it to exit and discards its output. A failure to launch is printed and then ignored. The model keeps only the ordered list of argument lists, without the constant `asuser <uid> /bin/launchctl` prefix.
- Login-item service: `SMAppService.mainApp.register()` and `unregister()` are foreign calls, and their errors are discarded. They are recorded as abstract `Register`/`Unregister` events. The initial status `SMAppService.mainApp.status == .enabled` is the constructor's `loginItemEnabled` parameter.
- Floating point: `scale` and `opacity` are Swift `Double`s and are modelled as `real`. `String(format: "%.3f", _)` is the constructor's `format3` parameter, so the digits of OPACITY and SCALE are not modelled. The 0.05–1.0 and 0.1–1.0 ranges are enforced only by the view's sliders, so the model does not require them.
- LoadIgnoresWrongType: covers only values the Foundation getters refuse outright. The model does not capture that `string(forKey:)` turns a stored number into its text (a number under "alignment" loads as that text, which then looks up as code "4", not as "topRight"), nor that `as? Bool` and `as? Double` convert stored numbers between Bool and Double. `Load` therefore reads a Bool key only from a stored Bool, a Double key only from a stored Double and "alignment" only from stored text. The setters only ever store values of the expected type, so the store-mirrors-fields invariant and the reload round trip are unaffected.
- Load: reads each key only from a value of the setting's own type; the number-to-text and Bool/Double conversions of the Foundation getters, named on the line above, are not modelled.
- Enumeration order: the model does not fix Swift's hash-based `Set` iteration order. The array stored by `SetSelectedElements` and the list joined by `ApplySettings` are each some enumeration of the set, chosen independently.
- Change notification: Combine's `@Published` and `ObservableObject` are not modelled. Neither is the `static let shared` singleton; the model uses one explicitly constructed manager, and the store is its field.
- MetalHUDmenu/ContentView.swift is not part of this model. It holds the view layout, the element catalogue, the preset buttons and the checkbox bindings, which assign whole sets through `SetSelectedElements`. It also holds a copy of the alignment table for the picker, and the always-visible scroll view.
- MetalHUDmenu/MetalHUDmenuApp.swift is not part of this model. It holds the status-bar item, the popover and the application delegate.
