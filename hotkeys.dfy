/**
 * F8 hotkey registration (the `HotkeyManager` of src/utils/hotkeys.py
 * that starts at line 166; the earlier class of the same name is rebound
 * by it and is not modelled).
 *
 * The manager prefers a global hotkey through the `keyboard` module and
 * falls back to a widget-scoped `QShortcut`. What those libraries do is a
 * parameter: whether `keyboard` imports, what `add_hotkey` returns or
 * raises, and how far building the shortcut gets before something raises.
 */
module Hotkeys {
  import opened Common

  /** A widget the shortcut can be attached to. */
  datatype Widget = Widget(id: nat)

  /** The callback handed to `register_f8`. */
  datatype Callback = Callback(id: nat)

  /** What `keyboard.add_hotkey` returned. */
  datatype Handler = Handler(id: int)

  /** The imported `keyboard` module. */
  datatype KeyboardModule = KeyboardModule

  /**
   * A `QShortcut` the manager built: its key, its parent widget, the
   * callbacks connected to `activated`, and the last value given to
   * `setEnabled` (None: never called).
   */
  datatype Shortcut = Shortcut(key: string, parent: Widget, connected: seq<Callback>, enabled: Option<bool>)

  /** How far the `QShortcut` fallback gets: which step raises, if any. */
  datatype ShortcutOutcome = CreateRaises | ConnectRaises | EnableRaises | Works

  datatype HotkeyEnv = HotkeyEnv(
    keyboardImports: bool,
    addHotkey: Result<Handler, string>,
    shortcut: ShortcutOutcome)

  /** The three fields `_keyboard`, `_keyboard_hotkey`, `_shortcut`, and the widget given at construction. */
  datatype HotkeyState = HotkeyState(
    widget: Option<Widget>,
    keyboard: Option<KeyboardModule>,
    keyboardHotkey: Option<Handler>,
    shortcut: Option<Shortcut>)

  /** The manager's invariant: a module is kept exactly when a hotkey handler is. */
  predicate Paired(s: HotkeyState)
  {
    s.keyboard.Some? <==> s.keyboardHotkey.Some?
  }

  /** `HotkeyManager(widget)`. */
  function Fresh(widget: Option<Widget>): HotkeyState
  {
    HotkeyState(widget, None, None, None)
  }

  /**
   * The `QShortcut` fallback on `w`: the shortcut is stored as soon as it
   * is built, so a raise while connecting or enabling leaves it stored
   * half set up; a raise while building leaves the old one.
   */
  function ShortcutFallback(previous: Option<Shortcut>, w: Widget, cb: Callback, outcome: ShortcutOutcome): Option<Shortcut>
  {
    match outcome
    case CreateRaises => previous
    case ConnectRaises => Some(Shortcut("F8", w, [], None))
    case EnableRaises => Some(Shortcut("F8", w, [cb], None))
    case Works => Some(Shortcut("F8", w, [cb], Some(true)))
  }

  /** `register_f8(callback)`: it never raises. */
  function RegisterStep(s: HotkeyState, cb: Callback, env: HotkeyEnv): HotkeyState
  {
    if !env.keyboardImports || env.addHotkey.Err? then
      if s.widget.Some? then s.(shortcut := ShortcutFallback(s.shortcut, s.widget.value, cb, env.shortcut))
      else s
    else s.(keyboard := Some(KeyboardModule), keyboardHotkey := Some(env.addHotkey.value))
  }

  /** The library calls `unregister_all` makes. */
  datatype Release = RemoveHotkey(handler: Option<Handler>) | Disable(shortcut: Shortcut)

  /** `unregister_all()`: what it calls, and the cleared state; raises in those calls are swallowed. */
  function UnregisterStep(s: HotkeyState): (HotkeyState, seq<Release>)
  {
    var removal := if s.keyboard.Some? then [RemoveHotkey(s.keyboardHotkey)] else [];
    var disabling := if s.shortcut.Some? then [Disable(s.shortcut.value)] else [];
    (s.(keyboard := None, keyboardHotkey := None, shortcut := None), removal + disabling)
  }

  // ---------------------------------------------------------------------
  // Properties

  /** A fresh manager holds nothing and keeps the invariant. */
  lemma FreshIsEmpty(widget: Option<Widget>)
    ensures var s := Fresh(widget);
      s.keyboard.None? && s.keyboardHotkey.None? && s.shortcut.None? && Paired(s)
  {
  }

  /** With `keyboard` available and `add_hotkey` succeeding, the handler is kept and no shortcut is built. */
  lemma GlobalHotkeyRegistered(s: HotkeyState, cb: Callback, env: HotkeyEnv)
    requires env.keyboardImports && env.addHotkey.Ok?
    ensures var t := RegisterStep(s, cb, env);
      t.keyboard == Some(KeyboardModule) && t.keyboardHotkey == Some(env.addHotkey.value) &&
      t.shortcut == s.shortcut && t.widget == s.widget
  {
  }

  /**
   * Without a global hotkey (no `keyboard`, or `add_hotkey` raising) and
   * with a widget, a working Qt builds an F8 shortcut on that widget,
   * connected to the callback and enabled; the keyboard fields are untouched.
   */
  lemma ShortcutFallbackRegistered(s: HotkeyState, cb: Callback, env: HotkeyEnv)
    requires !env.keyboardImports || env.addHotkey.Err?
    requires s.widget.Some? && env.shortcut == Works
    ensures var t := RegisterStep(s, cb, env);
      t.shortcut == Some(Shortcut("F8", s.widget.value, [cb], Some(true))) &&
      t.keyboard == s.keyboard && t.keyboardHotkey == s.keyboardHotkey
  {
  }

  /** Without a global hotkey and without a widget nothing is registered. */
  lemma NothingWithoutWidget(s: HotkeyState, cb: Callback, env: HotkeyEnv)
    requires !env.keyboardImports || env.addHotkey.Err?
    requires s.widget.None?
    ensures RegisterStep(s, cb, env) == s
  {
  }

  /**
   * A fresh manager whose `add_hotkey` raises keeps both keyboard fields
   * None; a shortcut appears only when there is a widget and Qt built one.
   */
  lemma AddHotkeyFailureFallsBack(widget: Option<Widget>, cb: Callback, env: HotkeyEnv)
    requires env.keyboardImports && env.addHotkey.Err?
    ensures var t := RegisterStep(Fresh(widget), cb, env);
      t.keyboard.None? && t.keyboardHotkey.None? &&
      (t.shortcut.Some? <==> widget.Some? && env.shortcut != CreateRaises)
  {
  }

  /** A raise while connecting leaves a stored shortcut with no callback and never enabled. */
  lemma HalfBuiltShortcutKept(s: HotkeyState, cb: Callback, env: HotkeyEnv)
    requires !env.keyboardImports && s.widget.Some? && env.shortcut == ConnectRaises
    ensures var t := RegisterStep(s, cb, env);
      t.shortcut.Some? && t.shortcut.value.connected == [] && t.shortcut.value.enabled.None?
  {
  }

  /**
   * `unregister_all` removes the stored handler, disables the stored
   * shortcut, and leaves all three fields None, even when those calls raise.
   */
  lemma UnregisterReleasesAll(s: HotkeyState)
    ensures var (t, calls) := UnregisterStep(s);
      t.keyboard.None? && t.keyboardHotkey.None? && t.shortcut.None? && t.widget == s.widget &&
      (s.keyboard.Some? <==> RemoveHotkey(s.keyboardHotkey) in calls) &&
      (s.shortcut.Some? ==> Disable(s.shortcut.value) in calls) &&
      (forall c :: c in calls && c.Disable? ==> s.shortcut == Some(c.shortcut)) &&
      (forall c :: c in calls && c.RemoveHotkey? ==> s.keyboard.Some? && c.handler == s.keyboardHotkey) &&
      (|calls| > 0 ==> calls[0] == if s.keyboard.Some? then RemoveHotkey(s.keyboardHotkey) else Disable(s.shortcut.value))
  {
  }

  /** A second `unregister_all` calls nothing and changes nothing. */
  lemma UnregisterTwice(s: HotkeyState)
    ensures var (t, _) := UnregisterStep(s);
      UnregisterStep(t) == (t, [])
  {
  }

  /** Both operations keep the invariant. */
  lemma OperationsKeepPaired(s: HotkeyState, cb: Callback, env: HotkeyEnv)
    requires Paired(s)
    ensures Paired(RegisterStep(s, cb, env))
    ensures Paired(UnregisterStep(s).0)
  {
  }

  // ---------------------------------------------------------------------
  // The class

  class HotkeyManager {
    const widget: Option<Widget>
    var keyboard: Option<KeyboardModule>
    var keyboardHotkey: Option<Handler>
    var shortcut: Option<Shortcut>

    function State(): HotkeyState
      reads this
    {
      HotkeyState(widget, keyboard, keyboardHotkey, shortcut)
    }

    ghost predicate Valid()
      reads this
    {
      Paired(State())
    }

    constructor(widget: Option<Widget>)
      ensures Valid() && State() == Fresh(widget)
    {
      this.widget := widget;
      keyboard := None;
      keyboardHotkey := None;
      shortcut := None;
    }

    /** `register_f8(callback)`. */
    method RegisterF8(cb: Callback, env: HotkeyEnv)
      requires Valid()
      modifies this
      ensures Valid() && State() == RegisterStep(old(State()), cb, env)
    {
      if !env.keyboardImports {
        if widget.Some? {
          BuildShortcut(cb, env.shortcut);
        }
        return;
      }
      match env.addHotkey
      case Ok(handler) =>
        keyboard := Some(KeyboardModule);
        keyboardHotkey := Some(handler);
      case Err(_) =>
        if widget.Some? {
          BuildShortcut(cb, env.shortcut);
        }
    }

    /** The `QShortcut(QKeySequence("F8"), widget)` block, stopping where `outcome` raises. */
    method BuildShortcut(cb: Callback, outcome: ShortcutOutcome)
      requires widget.Some?
      modifies this
      ensures State() == old(State()).(shortcut := ShortcutFallback(old(shortcut), widget.value, cb, outcome))
    {
      if outcome == CreateRaises {
        return;
      }
      shortcut := Some(Shortcut("F8", widget.value, [], None));
      if outcome == ConnectRaises {
        return;
      }
      var built := shortcut.value;
      assert built.connected + [cb] == [cb];
      shortcut := Some(built.(connected := built.connected + [cb]));
      if outcome == EnableRaises {
        return;
      }
      shortcut := Some(shortcut.value.(enabled := Some(true)));
    }

    /** `unregister_all()`: returns the library calls it made. */
    method UnregisterAll() returns (calls: seq<Release>)
      requires Valid()
      modifies this
      ensures Valid() && (State(), calls) == UnregisterStep(old(State()))
    {
      var removal: seq<Release> := [];
      if keyboard.Some? {
        removal := [RemoveHotkey(keyboardHotkey)];
        keyboard := None;
        keyboardHotkey := None;
      }
      var disabling: seq<Release> := [];
      if shortcut.Some? {
        disabling := [Disable(shortcut.value)];
        shortcut := None;
      }
      calls := removal + disabling;
    }
  }
}
