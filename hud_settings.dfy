/**
 * The settings manager of the Metal HUD menu-bar utility: six settings that
 * are written through to the per-user defaults store on every assignment, the
 * open-at-login flag that registers the app as a login item, the alignment
 * lookup table, and the three actions that set or unset the overlay's
 * environment variables through `launchctl`.
 */
module HUDSettings {
  import opened ElementList

  /** A value in the per-user defaults store, by the type it was stored with. */
  datatype Value =
    | Bool(b: bool)
    | Double(d: real)
    | Str(s: string)
    | StrArray(a: seq<string>)

  /** The per-user defaults store, key by key. */
  type Store = map<string, Value>

  /** The six persisted settings, field by field. */
  datatype Settings = Settings(
    hudEnabled: bool,
    selectedElements: set<string>,
    scale: real,
    opacity: real,
    alignment: string,
    enableHUDOnBoot: bool)

  /** A call into the login-item service. */
  datatype LoginItemEvent = Register | Unregister

  // Store keys, one per persisted setting.
  const HudEnabledKey: string := "hudEnabled"
  const SelectedElementsKey: string := "selectedElements"
  const ScaleKey: string := "scale"
  const OpacityKey: string := "opacity"
  const AlignmentKey: string := "alignment"
  const EnableHUDOnBootKey: string := "enableHUDOnBoot"

  const AppliedStatus: string := "\U{2705} Applied Metal HUD settings."
  const DisabledStatus: string := "\U{1F6AB} Disabled Metal HUD."

  /** The arguments of `launchctl` that remove the overlay switch. */
  const UnsetEnabled: seq<string> := ["unsetenv", "MTL_HUD_ENABLED"]

  /** The overlay's screen position codes, by alignment key. */
  const AlignmentMap: map<string, string> := map[
    "topLeft" := "10",
    "topCenter" := "14",
    "topRight" := "12",
    "center" := "30",
    "leftCenter" := "26",
    "centerRight" := "28",
    "bottomRight" := "20",
    "bottomCenter" := "22",
    "bottomLeft" := "18"
  ]

  /**
   * The position code for an alignment key; "4" for a key the table does not
   * know. "4" is not one of the table's codes, so the fallback is recognisable.
   */
  function AlignmentValue(key: string): (code: string)
    ensures code == "4" <==> key !in AlignmentMap
    ensures code in AlignmentMap.Values || code == "4"
  {
    if key in AlignmentMap then AlignmentMap[key] else "4"
  }

  /** The table entry for each of the nine keys, and the fallback. */
  lemma AlignmentTable(key: string)
    ensures AlignmentValue("topLeft") == "10"
    ensures AlignmentValue("topCenter") == "14"
    ensures AlignmentValue("topRight") == "12"
    ensures AlignmentValue("center") == "30"
    ensures AlignmentValue("leftCenter") == "26"
    ensures AlignmentValue("centerRight") == "28"
    ensures AlignmentValue("bottomRight") == "20"
    ensures AlignmentValue("bottomCenter") == "22"
    ensures AlignmentValue("bottomLeft") == "18"
    ensures key !in {"topLeft", "topCenter", "topRight", "center", "leftCenter",
                     "centerRight", "bottomRight", "bottomCenter", "bottomLeft"}
            ==> AlignmentValue(key) == "4"
  {
  }

  // Reading one key the way the initializer does: the stored value when the
  // key is present with the expected type, the default otherwise.

  function LoadBool(store: Store, key: string, default: bool): bool {
    if key in store && store[key].Bool? then store[key].b else default
  }

  function LoadDouble(store: Store, key: string, default: real): real {
    if key in store && store[key].Double? then store[key].d else default
  }

  function LoadString(store: Store, key: string, default: string): string {
    if key in store && store[key].Str? then store[key].s else default
  }

  function LoadStringSet(store: Store, key: string): set<string> {
    if key in store && store[key].StrArray? then (set x | x in store[key].a) else {}
  }

  /**
   * The persisted settings the initializer reads from `store`. Each one is
   * either its default or the value stored under its own key.
   */
  function Load(store: Store): (s: Settings)
    ensures !s.hudEnabled || (HudEnabledKey in store && store[HudEnabledKey] == Bool(true))
    ensures s.selectedElements == {}
            || (SelectedElementsKey in store && store[SelectedElementsKey].StrArray?
                && s.selectedElements == set x | x in store[SelectedElementsKey].a)
    ensures s.scale == 0.20 || (ScaleKey in store && store[ScaleKey] == Double(s.scale))
    ensures s.opacity == 1.00 || (OpacityKey in store && store[OpacityKey] == Double(s.opacity))
    ensures s.alignment == "topRight" || (AlignmentKey in store && store[AlignmentKey] == Str(s.alignment))
    ensures !s.enableHUDOnBoot
            || (EnableHUDOnBootKey in store && store[EnableHUDOnBootKey] == Bool(true))
  {
    Settings(
      LoadBool(store, HudEnabledKey, false),
      LoadStringSet(store, SelectedElementsKey),
      LoadDouble(store, ScaleKey, 0.20),
      LoadDouble(store, OpacityKey, 1.00),
      LoadString(store, AlignmentKey, "topRight"),
      LoadBool(store, EnableHUDOnBootKey, false))
  }

  /** A store without any of the keys yields the documented defaults. */
  lemma LoadDefaults(store: Store)
    requires HudEnabledKey !in store && SelectedElementsKey !in store
    requires ScaleKey !in store && OpacityKey !in store
    requires AlignmentKey !in store && EnableHUDOnBootKey !in store
    ensures Load(store) == Settings(false, {}, 0.20, 1.00, "topRight", false)
  {
  }

  /**
   * A key holding a value that the initializer's Foundation getter cannot
   * convert to the setting's type reads as absent: text under a Bool or
   * Double key, an array under "alignment", text under "selectedElements".
   */
  lemma LoadIgnoresWrongType(store: Store, s: string, a: seq<string>)
    ensures Load(store[HudEnabledKey := Str(s)]).hudEnabled == false
    ensures Load(store[ScaleKey := Str(s)]).scale == 0.20
    ensures Load(store[OpacityKey := Str(s)]).opacity == 1.00
    ensures Load(store[AlignmentKey := StrArray(a)]).alignment == "topRight"
    ensures Load(store[EnableHUDOnBootKey := Str(s)]).enableHUDOnBoot == false
    ensures Load(store[SelectedElementsKey := Str(s)]).selectedElements == {}
  {
  }

  /**
   * The selection reads back as the set of the stored array: any enumeration
   * of a set restores exactly that set, and other settings keep their values.
   */
  lemma LoadStoredSelection(store: Store, order: seq<string>, s: set<string>)
    requires Enumerates(order, s)
    ensures Load(store[SelectedElementsKey := StrArray(order)])
            == Load(store).(selectedElements := s)
  {
  }

  class HUDSettingsManager {
    var hudEnabled: bool
    var selectedElements: set<string>
    var scale: real
    var opacity: real
    var alignment: string
    var enableHUDOnBoot: bool
    var openAtLogin: bool
    var statusMessage: string

    /** The per-user defaults store the settings are written through to. */
    var store: Store

    /** `String(format: "%.3f", _)`, supplied by the platform. */
    const format3: real -> string

    /** Every `launchctl` command issued, without the `asuser <uid>` prefix. */
    ghost var commands: seq<seq<string>>

    /** Every call made into the login-item service. */
    ghost var loginItemEvents: seq<LoginItemEvent>

    /** The six persisted settings. */
    function Fields(): Settings
      reads this
    {
      Settings(hudEnabled, selectedElements, scale, opacity, alignment, enableHUDOnBoot)
    }

    /** The store mirrors every persisted setting: reloading it gives them back. */
    ghost predicate Valid()
      reads this
    {
      Load(store) == Fields()
    }

    /**
     * Loads each setting from `persisted`, or its default. `loginItemEnabled`
     * is the login-item service's status. Nothing is written to the store and
     * the login-item service is not called.
     */
    constructor (persisted: Store, loginItemEnabled: bool, format3: real -> string)
      ensures Valid()
      ensures Fields() == Load(persisted)
      ensures openAtLogin == loginItemEnabled
      ensures store == persisted
      ensures statusMessage == ""
      ensures commands == [] && loginItemEvents == []
      ensures this.format3 == format3
    {
      hudEnabled := LoadBool(persisted, HudEnabledKey, false);
      scale := LoadDouble(persisted, ScaleKey, 0.20);
      opacity := LoadDouble(persisted, OpacityKey, 1.00);
      alignment := LoadString(persisted, AlignmentKey, "topRight");
      enableHUDOnBoot := LoadBool(persisted, EnableHUDOnBootKey, false);
      openAtLogin := loginItemEnabled;
      if SelectedElementsKey in persisted && persisted[SelectedElementsKey].StrArray? {
        selectedElements := set x | x in persisted[SelectedElementsKey].a;
      } else {
        selectedElements := {};
      }
      statusMessage := "";
      store := persisted;
      this.format3 := format3;
      commands := [];
      loginItemEvents := [];
    }

    method SetHudEnabled(v: bool)
      requires Valid()
      modifies this`hudEnabled, this`store
      ensures Valid()
      ensures hudEnabled == v
      ensures store == old(store)[HudEnabledKey := Bool(v)]
    {
      hudEnabled := v;
      store := store[HudEnabledKey := Bool(hudEnabled)];
    }

    /** The set is stored as an array listing each element once, in some order. */
    method SetSelectedElements(v: set<string>)
      requires Valid()
      modifies this`selectedElements, this`store
      ensures Valid()
      ensures selectedElements == v
      ensures SelectedElementsKey in store && store[SelectedElementsKey].StrArray?
      ensures Enumerates(store[SelectedElementsKey].a, v)
      ensures store == old(store)[SelectedElementsKey := store[SelectedElementsKey]]
    {
      selectedElements := v;
      var order := Enumerate(selectedElements);
      store := store[SelectedElementsKey := StrArray(order)];
      LoadStoredSelection(old(store), order, v);
    }

    method SetScale(v: real)
      requires Valid()
      modifies this`scale, this`store
      ensures Valid()
      ensures scale == v
      ensures store == old(store)[ScaleKey := Double(v)]
    {
      scale := v;
      store := store[ScaleKey := Double(scale)];
    }

    method SetOpacity(v: real)
      requires Valid()
      modifies this`opacity, this`store
      ensures Valid()
      ensures opacity == v
      ensures store == old(store)[OpacityKey := Double(v)]
    {
      opacity := v;
      store := store[OpacityKey := Double(opacity)];
    }

    method SetAlignment(v: string)
      requires Valid()
      modifies this`alignment, this`store
      ensures Valid()
      ensures alignment == v
      ensures store == old(store)[AlignmentKey := Str(v)]
    {
      alignment := v;
      store := store[AlignmentKey := Str(alignment)];
    }

    method SetEnableHUDOnBoot(v: bool)
      requires Valid()
      modifies this`enableHUDOnBoot, this`store
      ensures Valid()
      ensures enableHUDOnBoot == v
      ensures store == old(store)[EnableHUDOnBootKey := Bool(v)]
    {
      enableHUDOnBoot := v;
      store := store[EnableHUDOnBootKey := Bool(enableHUDOnBoot)];
    }

    /**
     * Registers the login item for true. For false it unregisters it and
     * switches "enable HUD on boot" off, even when both were off already.
     * The flag itself is not persisted.
     */
    method SetOpenAtLogin(v: bool)
      requires Valid()
      modifies this`openAtLogin, this`enableHUDOnBoot, this`store, this`loginItemEvents
      ensures Valid()
      ensures openAtLogin == v
      ensures v ==> loginItemEvents == old(loginItemEvents) + [Register]
      ensures v ==> enableHUDOnBoot == old(enableHUDOnBoot) && store == old(store)
      ensures !v ==> loginItemEvents == old(loginItemEvents) + [Unregister]
      ensures !v ==> !enableHUDOnBoot && store == old(store)[EnableHUDOnBootKey := Bool(false)]
    {
      openAtLogin := v;
      if openAtLogin {
        loginItemEvents := loginItemEvents + [Register];
      } else {
        loginItemEvents := loginItemEvents + [Unregister];
        SetEnableHUDOnBoot(false);
      }
    }

    /** The five `setenv` commands for the current settings, in issue order. */
    ghost predicate IssuedApply(before: seq<seq<string>>)
      reads this
    {
      exists elements | JoinedFrom(elements, selectedElements) ::
        commands == before + [
          ["setenv", "MTL_HUD_ENABLED", "1"],
          ["setenv", "MTL_HUD_ELEMENTS", elements],
          ["setenv", "MTL_HUD_OPACITY", format3(opacity)],
          ["setenv", "MTL_HUD_SCALE", format3(scale)],
          ["setenv", "MTL_HUD_ALIGNMENT", AlignmentValue(alignment)]]
    }

    /**
     * With the overlay enabled: five `setenv` commands, then the applied
     * status. Otherwise exactly what `DisableHUD` does. No setting and no
     * store entry changes.
     */
    method ApplySettings()
      modifies this`commands, this`statusMessage
      ensures hudEnabled ==> IssuedApply(old(commands)) && statusMessage == AppliedStatus
      ensures !hudEnabled ==> commands == old(commands) + [UnsetEnabled]
      ensures !hudEnabled ==> statusMessage == DisabledStatus
    {
      if hudEnabled {
        RunLaunchctl(["setenv", "MTL_HUD_ENABLED", "1"]);
        var order := Enumerate(selectedElements);
        var elements := Join(order, ',');
        RunLaunchctl(["setenv", "MTL_HUD_ELEMENTS", elements]);
        RunLaunchctl(["setenv", "MTL_HUD_OPACITY", format3(opacity)]);
        RunLaunchctl(["setenv", "MTL_HUD_SCALE", format3(scale)]);
        RunLaunchctl(["setenv", "MTL_HUD_ALIGNMENT", AlignmentValue(alignment)]);
        statusMessage := AppliedStatus;
        assert JoinedFrom(elements, selectedElements);
      } else {
        DisableHUD();
      }
    }

    /** One `unsetenv` of the overlay switch, then the disabled status. */
    method DisableHUD()
      modifies this`commands, this`statusMessage
      ensures commands == old(commands) + [UnsetEnabled]
      ensures statusMessage == DisabledStatus
    {
      RunLaunchctl(UnsetEnabled);
      statusMessage := DisabledStatus;
    }

    /**
     * Applies the settings at launch when both "enable HUD on boot" and the
     * overlay are on; otherwise issues nothing and changes nothing.
     */
    method ApplyOnBootIfNeeded()
      modifies this`commands, this`statusMessage
      ensures enableHUDOnBoot && hudEnabled ==> IssuedApply(old(commands))
      ensures enableHUDOnBoot && hudEnabled ==> statusMessage == AppliedStatus
      ensures !(enableHUDOnBoot && hudEnabled) ==> commands == old(commands)
      ensures !(enableHUDOnBoot && hudEnabled) ==> statusMessage == old(statusMessage)
    {
      if enableHUDOnBoot && hudEnabled {
        ApplySettings();
      }
    }

    /** Issues `launchctl asuser <uid> /bin/launchctl <args>`. */
    method RunLaunchctl(args: seq<string>)
      modifies this`commands
      ensures commands == old(commands) + [args]
    {
      commands := commands + [args];
    }
  }

  /**
   * A fresh manager built from the store of a live one has the same persisted
   * settings: every assignment made through the setters survives a restart.
   */
  method Reload(m: HUDSettingsManager, loginItemEnabled: bool) returns (r: HUDSettingsManager)
    requires m.Valid()
    ensures fresh(r) && r.Valid()
    ensures r.Fields() == m.Fields() && r.store == m.store
  {
    r := new HUDSettingsManager(m.store, loginItemEnabled, m.format3);
  }

  /**
   * First launch with an empty store: switching the overlay on and applying
   * sends an empty element list, the formatted defaults 1.00 and 0.20, and
   * the code "12" of the default alignment "topRight".
   */
  method FirstLaunchApply(loginItemEnabled: bool, format3: real -> string)
    returns (m: HUDSettingsManager)
    ensures fresh(m) && m.Valid()
    ensures m.commands == [
      ["setenv", "MTL_HUD_ENABLED", "1"],
      ["setenv", "MTL_HUD_ELEMENTS", ""],
      ["setenv", "MTL_HUD_OPACITY", format3(1.00)],
      ["setenv", "MTL_HUD_SCALE", format3(0.20)],
      ["setenv", "MTL_HUD_ALIGNMENT", "12"]]
    ensures m.statusMessage == AppliedStatus
  {
    m := new HUDSettingsManager(map[], loginItemEnabled, format3);
    LoadDefaults(map[]);
    m.SetHudEnabled(true);
    m.ApplySettings();
    ghost var elements :| JoinedFrom(elements, {}) && m.commands == [
      ["setenv", "MTL_HUD_ENABLED", "1"],
      ["setenv", "MTL_HUD_ELEMENTS", elements],
      ["setenv", "MTL_HUD_OPACITY", format3(1.00)],
      ["setenv", "MTL_HUD_SCALE", format3(0.20)],
      ["setenv", "MTL_HUD_ALIGNMENT", AlignmentValue("topRight")]];
    JoinedFromEmpty(elements);
  }
}
