/** The settings snapshot of the VimTouch terminal: compiled-in defaults,
    overlaid by a preference source whose bounded integers are parsed, fall
    back to the current value and are clamped; then typed and derived reads. */
module VimTouch {
  import opened JavaLang
  import opened SharedPrefs

  // ---------------------------------------------------------------------
  // Preference keys
  // ---------------------------------------------------------------------

  /** Declared, never read: the status bar and cursor keys are not loaded. */
  const STATUSBAR_KEY := "statusbar"
  const CURSORSTYLE_KEY := "cursorstyle"
  const CURSORBLINK_KEY := "cursorblink"

  const ACTIONBAR_KEY := "actionbar"
  const FONTSIZE_KEY := "fontsize"
  const COLOR_KEY := "color"
  const UTF8_KEY := "utf8_by_default"
  const BACKACTION_KEY := "backaction"
  const CONTROLKEY_KEY := "controlkey"
  const FNKEY_KEY := "fnkey"
  const IME_KEY := "ime"
  const SHELL_KEY := "shell"
  const INITIALCOMMAND_KEY := "initialcommand"
  const TERMTYPE_KEY := "termtype"
  const CLOSEONEXIT_KEY := "close_window_on_process_exit"
  const VERIFYPATH_KEY := "verify_path"
  const PATHEXTENSIONS_KEY := "do_path_extensions"
  const PATHPREPEND_KEY := "allow_prepend_path"
  const TOUCHGESTURE_KEY := "touch_gesture"
  const SINGLETAPESC_KEY := "single_tap_esc"
  const ZOOMBOTTOM_KEY := "zoombottom"
  const QUICKBARPOS_KEY := "quickbar_pos"
  const LASTVERSION_KEY := "last_version"

  // ---------------------------------------------------------------------
  // Colour schemes: foreground index, foreground ARGB, background index,
  // background ARGB. The colours are Java ints, so 0xff...... is negative.
  // ---------------------------------------------------------------------

  const WHITE: int32 := Argb(0xffff_ffff)
  const BLACK: int32 := Argb(0xff00_0000)
  const BLUE: int32 := Argb(0xff34_4ebd)
  const GREEN: int32 := Argb(0xff00_ff00)
  const AMBER: int32 := Argb(0xffff_b651)
  const RED: int32 := Argb(0xffff_0113)
  const HOLO_BLUE: int32 := Argb(0xff33_b5e5)

  const COLOR_SCHEMES: seq<seq<int32>> := [
    [0, BLACK, 7, WHITE],
    [7, WHITE, 0, BLACK],
    [7, WHITE, 4, BLUE],
    [2, GREEN, 0, BLACK],
    [3, AMBER, 0, BLACK],
    [1, RED, 0, BLACK],
    [4, HOLO_BLUE, 0, BLACK]
  ]

  const ACTION_BAR_MODE_NONE: int32 := 0
  const ACTION_BAR_MODE_ALWAYS_VISIBLE: int32 := 1
  const ACTION_BAR_MODE_HIDES: int32 := 2
  const ACTION_BAR_MODE_MAX: int32 := 2

  // ---------------------------------------------------------------------
  // Key-code schemes. The platform's KeyEvent codes stay symbolic; only the
  // sentinel KEYCODE_NONE has a value of its own, -1.
  // ---------------------------------------------------------------------

  datatype KeyName = DpadCenter | At | AltLeft | AltRight | VolumeUp | VolumeDown | Camera

  datatype KeyCode = KeyEvent(name: KeyName) | Code(value: int32)

  /** An integer not in the range of real key codes. */
  const KEYCODE_NONE: KeyCode := Code(-1)

  const CONTROL_KEY_ID_NONE: int32 := 7
  const CONTROL_KEY_SCHEMES: seq<KeyCode> := [
    KeyEvent(DpadCenter), KeyEvent(At), KeyEvent(AltLeft), KeyEvent(AltRight),
    KeyEvent(VolumeUp), KeyEvent(VolumeDown), KeyEvent(Camera), KEYCODE_NONE
  ]

  const FN_KEY_ID_NONE: int32 := 7
  const FN_KEY_SCHEMES: seq<KeyCode> := [
    KeyEvent(DpadCenter), KeyEvent(At), KeyEvent(AltLeft), KeyEvent(AltRight),
    KeyEvent(VolumeUp), KeyEvent(VolumeDown), KeyEvent(Camera), KEYCODE_NONE
  ]

  const BACK_KEY_STOPS_SERVICE: int32 := 0
  const BACK_KEY_CLOSES_WINDOW: int32 := 1
  const BACK_KEY_CLOSES_ACTIVITY: int32 := 2
  const BACK_KEY_SENDS_ESC: int32 := 3
  const BACK_KEY_SENDS_TAB: int32 := 4
  const BACK_KEY_MAX: int32 := 4

  /** The upper bounds the overlay phase clamps to. */
  const FONT_SIZE_MAX: int32 := 20
  const COLOR_ID_MAX: int32 := (|COLOR_SCHEMES| - 1) as int32
  const CONTROL_KEY_ID_MAX: int32 := (|CONTROL_KEY_SCHEMES| - 1) as int32
  const FN_KEY_ID_MAX: int32 := (|FN_KEY_SCHEMES| - 1) as int32
  const IME_MAX: int32 := 1
  const QUICKBAR_POS_MAX: int32 := 4

  // ---------------------------------------------------------------------
  // Data model
  // ---------------------------------------------------------------------

  /** The compiled-in resource defaults, already in their typed form. */
  datatype Defaults = Defaults(
    actionBar: int32,
    cursorStyle: int32,
    cursorBlink: int32,
    fontSize: int32,
    color: int32,
    utf8ByDefault: bool,
    backAction: int32,
    controlKey: int32,
    fnKey: int32,
    ime: int32,
    shell: string,
    initialCommand: string,
    termType: string,
    closeOnExit: bool,
    verifyPath: bool,
    doPathExtensions: bool,
    allowPrependPath: bool,
    touchGesture: bool,
    singleTapEsc: bool,
    zoomBottom: bool,
    quickbarPos: int32)

  /** The display fields, in the order both load phases visit them. */
  datatype Display = Display(
    actionBarMode: int32,
    cursorStyle: int32,
    cursorBlink: int32,
    fontSize: int32,
    colorId: int32,
    utf8ByDefault: bool)
  {
    predicate IndicesValid() {
      0 <= colorId as int < |COLOR_SCHEMES|
    }

    predicate Clamped() {
      && 0 <= actionBarMode <= ACTION_BAR_MODE_MAX
      && 0 <= fontSize <= FONT_SIZE_MAX
      && 0 <= colorId <= COLOR_ID_MAX
    }
  }

  /** The back key action, the two key-scheme ids and the IME flag. */
  datatype Keys = Keys(
    backKeyAction: int32,
    controlKeyId: int32,
    fnKeyId: int32,
    useCookedIme: int32)
  {
    predicate IndicesValid() {
      && 0 <= controlKeyId as int < |CONTROL_KEY_SCHEMES|
      && 0 <= fnKeyId as int < |FN_KEY_SCHEMES|
    }

    predicate Clamped() {
      && 0 <= backKeyAction <= BACK_KEY_MAX
      && 0 <= controlKeyId <= CONTROL_KEY_ID_MAX
      && 0 <= fnKeyId <= FN_KEY_ID_MAX
      && 0 <= useCookedIme <= IME_MAX
    }
  }

  /** The shell session: the shell, the failsafe shell it falls back to, the
      initial command, the terminal type and whether the window closes when
      the shell exits. */
  datatype Session = Session(
    shell: string,
    failsafeShell: string,
    initialCommand: string,
    termType: string,
    closeOnExit: bool)

  /** The three PATH options. */
  datatype Paths = Paths(
    verifyPath: bool,
    doPathExtensions: bool,
    allowPathPrepend: bool)

  /** The touch options and the quickbar position. */
  datatype Touch = Touch(
    touchGesture: bool,
    singleTapEsc: bool,
    zoomBottom: bool,
    quickbarPos: int32)
  {
    predicate Clamped() {
      0 <= quickbarPos <= QUICKBAR_POS_MAX
    }
  }

  /** The value of every field of a settings object, group by group. */
  datatype Settings = Settings(
    display: Display,
    keys: Keys,
    session: Session,
    paths: Paths,
    touch: Touch,
    lastVersionCode: int64,
    prependPath: Option<string>,
    appendPath: Option<string>)
  {
    /** Every scheme id indexes its table. */
    predicate IndicesValid() {
      display.IndicesValid() && keys.IndicesValid()
    }

    /** Every integer the overlay phase reads lies in the range it clamps to. */
    predicate Clamped() {
      display.Clamped() && keys.Clamped() && touch.Clamped()
    }
  }

  // ---------------------------------------------------------------------
  // Reading one preference
  // ---------------------------------------------------------------------

  /** Math.max(0, Math.min(val, maxValue)) */
  function Clamp(val: int32, maxValue: int32): (r: int32)
    ensures maxValue >= 0 ==> 0 <= r <= maxValue
    ensures 0 <= val <= maxValue ==> r == val
    ensures 0 <= maxValue < val ==> r == maxValue
    ensures val < 0 || maxValue < 0 ==> r == 0
  {
    Max(0, Min(val, maxValue))
  }

  /** readIntPref, by cases: an absent key yields the default, a stored
      string that parses yields its value, one that does not yields the
      default; either way the value is clamped to [0, maxValue]. */
  function ReadIntPref(p: Prefs, key: string, defaultValue: int32, maxValue: int32): (r: int32)
    ensures maxValue >= 0 ==> 0 <= r <= maxValue
    ensures key !in p.strings ==> r == Clamp(defaultValue, maxValue)
    ensures key in p.strings && ParseInt(p.strings[key]).None? ==> r == Clamp(defaultValue, maxValue)
    ensures key in p.strings && ParseInt(p.strings[key]).Some? ==> r == Clamp(ParseInt(p.strings[key]).value, maxValue)
  {
    if key !in p.strings then Clamp(defaultValue, maxValue)
    else match ParseInt(p.strings[key])
      case Some(v) => Clamp(v, maxValue)
      case None => Clamp(defaultValue, maxValue)
  }

  /** readIntPref as the source writes it: getString with the default's own
      decimal form as the fallback, parseInt of the result (the
      NumberFormatException case falling back to the default), then the
      clamp. */
  function ReadIntPrefExpression(p: Prefs, key: string, defaultValue: int32, maxValue: int32): int32 {
    var raw := GetString(p, key, IntToString(defaultValue));
    var val := match ParseInt(raw) case Some(v) => v case None => defaultValue;
    Clamp(val, maxValue)
  }

  /** The case analysis is that expression: an absent key round-trips the
      default through Integer.toString and Integer.parseInt unchanged. */
  lemma ReadIntPrefMatchesExpression(p: Prefs, key: string, defaultValue: int32, maxValue: int32)
    ensures ReadIntPrefExpression(p, key, defaultValue, maxValue) == ReadIntPref(p, key, defaultValue, maxValue)
  {
    ParseIntToString(defaultValue);
  }

  /** readStringPref: the stored string, or the caller's default. */
  function ReadStringPref(p: Prefs, key: string, defaultValue: string): (r: string)
    ensures key in p.strings ==> r == p.strings[key]
    ensures key !in p.strings ==> r == defaultValue
  {
    GetString(p, key, defaultValue)
  }

  /** readBooleanPref: the stored boolean, or the caller's default. */
  function ReadBooleanPref(p: Prefs, key: string, defaultValue: bool): (r: bool)
    ensures key in p.booleans ==> r == p.booleans[key]
    ensures key !in p.booleans ==> r == defaultValue
  {
    GetBoolean(p, key, defaultValue)
  }

  // ---------------------------------------------------------------------
  // The two load phases, as functions on settings values
  // ---------------------------------------------------------------------

  function DisplayDefaults(res: Defaults): Display {
    Display(res.actionBar, res.cursorStyle, res.cursorBlink, res.fontSize, res.color,
      res.utf8ByDefault)
  }

  function KeyDefaults(res: Defaults): Keys {
    Keys(res.backAction, res.controlKey, res.fnKey, res.ime)
  }

  /** The shell starts as the failsafe shell. */
  function SessionDefaults(res: Defaults): Session {
    Session(res.shell, res.shell, res.initialCommand, res.termType, res.closeOnExit)
  }

  function PathDefaults(res: Defaults): Paths {
    Paths(res.verifyPath, res.doPathExtensions, res.allowPrependPath)
  }

  function TouchDefaults(res: Defaults): Touch {
    Touch(res.touchGesture, res.singleTapEsc, res.zoomBottom, res.quickbarPos)
  }

  /** The default phase: every loaded field from the resources, the shell
      equal to the failsafe shell, no last-seen version, no extra paths. */
  function FromDefaults(res: Defaults): (r: Settings)
    ensures r.session.shell == r.session.failsafeShell == res.shell
    ensures r.display.fontSize == res.fontSize && r.display.colorId == res.color
    ensures r.keys.backKeyAction == res.backAction && r.touch.quickbarPos == res.quickbarPos
    ensures r.lastVersionCode == 0
    ensures r.prependPath == None && r.appendPath == None
  {
    Settings(DisplayDefaults(res), KeyDefaults(res), SessionDefaults(res), PathDefaults(res),
      TouchDefaults(res), 0, None, None)
  }

  /** Overlay, display group: action bar, font size, colour scheme, UTF-8.
      The cursor fields are not read. */
  function OverlayDisplay(d: Display, p: Prefs): Display {
    d.(
      actionBarMode := ReadIntPref(p, ACTIONBAR_KEY, d.actionBarMode, ACTION_BAR_MODE_MAX),
      fontSize := ReadIntPref(p, FONTSIZE_KEY, d.fontSize, FONT_SIZE_MAX),
      colorId := ReadIntPref(p, COLOR_KEY, d.colorId, COLOR_ID_MAX),
      utf8ByDefault := ReadBooleanPref(p, UTF8_KEY, d.utf8ByDefault))
  }

  /** Overlay, key group: back key, control and fn key schemes, IME. */
  function OverlayKeys(k: Keys, p: Prefs): Keys {
    Keys(
      ReadIntPref(p, BACKACTION_KEY, k.backKeyAction, BACK_KEY_MAX),
      ReadIntPref(p, CONTROLKEY_KEY, k.controlKeyId, CONTROL_KEY_ID_MAX),
      ReadIntPref(p, FNKEY_KEY, k.fnKeyId, FN_KEY_ID_MAX),
      ReadIntPref(p, IME_KEY, k.useCookedIme, IME_MAX))
  }

  /** Overlay, session group: shell, initial command, terminal type, close on
      exit. The failsafe shell is not read. */
  function OverlaySession(e: Session, p: Prefs): Session {
    e.(
      shell := ReadStringPref(p, SHELL_KEY, e.shell),
      initialCommand := ReadStringPref(p, INITIALCOMMAND_KEY, e.initialCommand),
      termType := ReadStringPref(p, TERMTYPE_KEY, e.termType),
      closeOnExit := ReadBooleanPref(p, CLOSEONEXIT_KEY, e.closeOnExit))
  }

  /** Overlay, path group. */
  function OverlayPaths(a: Paths, p: Prefs): Paths {
    Paths(
      ReadBooleanPref(p, VERIFYPATH_KEY, a.verifyPath),
      ReadBooleanPref(p, PATHEXTENSIONS_KEY, a.doPathExtensions),
      ReadBooleanPref(p, PATHPREPEND_KEY, a.allowPathPrepend))
  }

  /** Overlay, touch group: touch options and quickbar position. */
  function OverlayTouch(t: Touch, p: Prefs): Touch {
    Touch(
      ReadBooleanPref(p, TOUCHGESTURE_KEY, t.touchGesture),
      ReadBooleanPref(p, SINGLETAPESC_KEY, t.singleTapEsc),
      ReadBooleanPref(p, ZOOMBOTTOM_KEY, t.zoomBottom),
      ReadIntPref(p, QUICKBARPOS_KEY, t.quickbarPos, QUICKBAR_POS_MAX))
  }

  /** The overlay phase: each persisted key read with the field's current
      value as its default, and the last-seen version read with default 0.
      The cursor fields, the failsafe shell and the extra paths are not
      read. */
  function Overlay(s: Settings, p: Prefs): (r: Settings)
    ensures r.Clamped() && r.IndicesValid()
    ensures r.display.cursorStyle == s.display.cursorStyle
    ensures r.display.cursorBlink == s.display.cursorBlink
    ensures r.session.failsafeShell == s.session.failsafeShell
    ensures r.prependPath == s.prependPath && r.appendPath == s.appendPath
    ensures r.lastVersionCode == GetLong(p, LASTVERSION_KEY, 0)
  {
    s.(
      display := OverlayDisplay(s.display, p),
      keys := OverlayKeys(s.keys, p),
      session := OverlaySession(s.session, p),
      paths := OverlayPaths(s.paths, p),
      touch := OverlayTouch(s.touch, p),
      lastVersionCode := GetLong(p, LASTVERSION_KEY, 0))
  }

  /** Construction: the default phase, then the overlay phase. */
  function Load(res: Defaults, p: Prefs): (r: Settings)
    ensures r.Clamped() && r.IndicesValid()
    ensures r.session.failsafeShell == res.shell
    ensures r.display.cursorStyle == res.cursorStyle && r.display.cursorBlink == res.cursorBlink
    ensures r.prependPath == None && r.appendPath == None
  {
    Overlay(FromDefaults(res), p)
  }

  /** `a` and `b` agree on every field whose key `p` does not hold. */
  ghost predicate AgreeWhereAbsent(p: Prefs, a: Settings, b: Settings) {
    && (ACTIONBAR_KEY !in p.strings ==> a.display.actionBarMode == b.display.actionBarMode)
    && (FONTSIZE_KEY !in p.strings ==> a.display.fontSize == b.display.fontSize)
    && (COLOR_KEY !in p.strings ==> a.display.colorId == b.display.colorId)
    && (UTF8_KEY !in p.booleans ==> a.display.utf8ByDefault == b.display.utf8ByDefault)
    && (BACKACTION_KEY !in p.strings ==> a.keys.backKeyAction == b.keys.backKeyAction)
    && (CONTROLKEY_KEY !in p.strings ==> a.keys.controlKeyId == b.keys.controlKeyId)
    && (FNKEY_KEY !in p.strings ==> a.keys.fnKeyId == b.keys.fnKeyId)
    && (IME_KEY !in p.strings ==> a.keys.useCookedIme == b.keys.useCookedIme)
    && (SHELL_KEY !in p.strings ==> a.session.shell == b.session.shell)
    && (INITIALCOMMAND_KEY !in p.strings ==> a.session.initialCommand == b.session.initialCommand)
    && (TERMTYPE_KEY !in p.strings ==> a.session.termType == b.session.termType)
    && (CLOSEONEXIT_KEY !in p.booleans ==> a.session.closeOnExit == b.session.closeOnExit)
    && (VERIFYPATH_KEY !in p.booleans ==> a.paths.verifyPath == b.paths.verifyPath)
    && (PATHEXTENSIONS_KEY !in p.booleans ==> a.paths.doPathExtensions == b.paths.doPathExtensions)
    && (PATHPREPEND_KEY !in p.booleans ==> a.paths.allowPathPrepend == b.paths.allowPathPrepend)
    && (TOUCHGESTURE_KEY !in p.booleans ==> a.touch.touchGesture == b.touch.touchGesture)
    && (SINGLETAPESC_KEY !in p.booleans ==> a.touch.singleTapEsc == b.touch.singleTapEsc)
    && (ZOOMBOTTOM_KEY !in p.booleans ==> a.touch.zoomBottom == b.touch.zoomBottom)
    && (QUICKBARPOS_KEY !in p.strings ==> a.touch.quickbarPos == b.touch.quickbarPos)
  }

  // ---------------------------------------------------------------------
  // Properties of the overlay phase
  // ---------------------------------------------------------------------

  /** Reading an integer key a second time from the same source changes
      nothing. */
  lemma ReadIntPrefIdempotent(p: Prefs, key: string, d: int32, maxValue: int32)
    requires maxValue >= 0
    ensures ReadIntPref(p, key, ReadIntPref(p, key, d, maxValue), maxValue) == ReadIntPref(p, key, d, maxValue)
  {
  }

  /** A key the source does not hold keeps the field's current value, once
      that value is in range: the overlay never resets to the defaults. */
  lemma OverlayKeepsAbsentKeys(s: Settings, p: Prefs)
    requires s.Clamped()
    ensures AgreeWhereAbsent(p, s, Overlay(s, p))
  {
  }

  /** Without the range condition, an absent key leaves the current value
      clamped. */
  lemma OverlayClampsAbsentKeys(s: Settings, p: Prefs)
    ensures FONTSIZE_KEY !in p.strings ==> Overlay(s, p).display.fontSize == Clamp(s.display.fontSize, FONT_SIZE_MAX)
    ensures COLOR_KEY !in p.strings ==> Overlay(s, p).display.colorId == Clamp(s.display.colorId, COLOR_ID_MAX)
    ensures ACTIONBAR_KEY !in p.strings ==> Overlay(s, p).display.actionBarMode == Clamp(s.display.actionBarMode, ACTION_BAR_MODE_MAX)
    ensures BACKACTION_KEY !in p.strings ==> Overlay(s, p).keys.backKeyAction == Clamp(s.keys.backKeyAction, BACK_KEY_MAX)
    ensures CONTROLKEY_KEY !in p.strings ==> Overlay(s, p).keys.controlKeyId == Clamp(s.keys.controlKeyId, CONTROL_KEY_ID_MAX)
    ensures FNKEY_KEY !in p.strings ==> Overlay(s, p).keys.fnKeyId == Clamp(s.keys.fnKeyId, FN_KEY_ID_MAX)
    ensures IME_KEY !in p.strings ==> Overlay(s, p).keys.useCookedIme == Clamp(s.keys.useCookedIme, IME_MAX)
    ensures QUICKBARPOS_KEY !in p.strings ==> Overlay(s, p).touch.quickbarPos == Clamp(s.touch.quickbarPos, QUICKBAR_POS_MAX)
  {
  }

  /** Reloading from an empty source is the identity on an in-range
      snapshot, except that the last-seen version goes back to 0. */
  lemma OverlayEmptyIdentity(s: Settings)
    requires s.Clamped()
    ensures Overlay(s, EMPTY) == s.(lastVersionCode := 0)
  {
  }

  /** Reloading from the same source a second time changes nothing. */
  lemma OverlayIdempotent(s: Settings, p: Prefs)
    ensures Overlay(Overlay(s, p), p) == Overlay(s, p)
  {
  }

  /** Two loads in a row: whatever the second source omits keeps the value
      the first load gave it. */
  lemma ReloadKeepsFirstLoad(s: Settings, p1: Prefs, p2: Prefs)
    ensures AgreeWhereAbsent(p2, Overlay(s, p1), Overlay(Overlay(s, p1), p2))
  {
  }

  /** A fresh load from a source with no entries: the bounded integers are the
      compiled-in defaults clamped, the rest are the defaults. */
  lemma LoadWithoutEntries(res: Defaults)
    ensures Load(res, EMPTY).display.fontSize == Clamp(res.fontSize, FONT_SIZE_MAX)
    ensures Load(res, EMPTY).display.colorId == Clamp(res.color, COLOR_ID_MAX)
    ensures Load(res, EMPTY).display.actionBarMode == Clamp(res.actionBar, ACTION_BAR_MODE_MAX)
    ensures Load(res, EMPTY).keys.backKeyAction == Clamp(res.backAction, BACK_KEY_MAX)
    ensures Load(res, EMPTY).keys.controlKeyId == Clamp(res.controlKey, CONTROL_KEY_ID_MAX)
    ensures Load(res, EMPTY).keys.fnKeyId == Clamp(res.fnKey, FN_KEY_ID_MAX)
    ensures Load(res, EMPTY).keys.useCookedIme == Clamp(res.ime, IME_MAX)
    ensures Load(res, EMPTY).touch.quickbarPos == Clamp(res.quickbarPos, QUICKBAR_POS_MAX)
    ensures Load(res, EMPTY).session == SessionDefaults(res)
    ensures Load(res, EMPTY).paths == PathDefaults(res)
    ensures Load(res, EMPTY).lastVersionCode == 0
  {
  }

  /** A stored font size of "999" loads as the maximum, 20. */
  lemma FontSizeAboveMaxClamps(s: Settings, p: Prefs)
    requires FONTSIZE_KEY in p.strings && p.strings[FONTSIZE_KEY] == "999"
    ensures Overlay(s, p).display.fontSize == FONT_SIZE_MAX
  {
    assert "999"[..2] == "99" && "99"[..1] == "9" && "9"[..0] == "";
    assert ParseInt("999") == Some(999);
  }

  /** A stored colour of "-5" loads as scheme 0, black on white. */
  lemma ColorBelowZeroClamps(s: Settings, p: Prefs)
    requires COLOR_KEY in p.strings && p.strings[COLOR_KEY] == "-5"
    ensures Overlay(s, p).display.colorId == 0
    ensures COLOR_SCHEMES[Overlay(s, p).display.colorId] == [0, BLACK, 7, WHITE]
  {
    assert "-5"[1..] == "5" && "5"[..0] == "";
    assert ParseInt("-5") == Some(-5);
  }

  /** A stored string that is not a number falls back to the current value,
      not to 0. */
  lemma UnparsableFallsBack(s: Settings, p: Prefs)
    requires s.Clamped()
    requires FONTSIZE_KEY in p.strings && p.strings[FONTSIZE_KEY] == "big"
    ensures Overlay(s, p).display.fontSize == s.display.fontSize
  {
  }

  // ---------------------------------------------------------------------
  // The settings object
  // ---------------------------------------------------------------------

  class VimSettings {
    var display: Display
    var keys: Keys
    var session: Session
    var paths: Paths
    var touch: Touch
    var lastVersionCode: int64
    var prependPath: Option<string>
    var appendPath: Option<string>

    /** The value of all fields. */
    ghost function Snapshot(): Settings
      reads this
    {
      Settings(display, keys, session, paths, touch, lastVersionCode, prependPath, appendPath)
    }

    /** The object invariant the table lookups rely on. */
    ghost predicate Valid()
      reads this
    {
      display.IndicesValid() && keys.IndicesValid()
    }

    constructor (res: Defaults, prefs: Prefs)
      ensures Snapshot() == Load(res, prefs)
      ensures Valid() && Snapshot().Clamped()
    {
      prependPath := None;
      appendPath := None;
      new;
      ReadDefaultPrefs(res);
      ReadPrefs(prefs);
    }

    /** The default phase; the extra paths are left as they are. */
    method ReadDefaultPrefs(res: Defaults)
      modifies this`display, this`keys, this`session, this`paths, this`touch,
        this`lastVersionCode
      ensures Snapshot() == FromDefaults(res).(prependPath := prependPath, appendPath := appendPath)
    {
      display := Display(
        actionBarMode := res.actionBar,
        cursorStyle := res.cursorStyle,
        cursorBlink := res.cursorBlink,
        fontSize := res.fontSize,
        colorId := res.color,
        utf8ByDefault := res.utf8ByDefault);
      keys := Keys(
        backKeyAction := res.backAction,
        controlKeyId := res.controlKey,
        fnKeyId := res.fnKey,
        useCookedIme := res.ime);
      var failsafeShell := res.shell;
      session := Session(
        shell := failsafeShell,
        failsafeShell := failsafeShell,
        initialCommand := res.initialCommand,
        termType := res.termType,
        closeOnExit := res.closeOnExit);
      paths := Paths(
        verifyPath := res.verifyPath,
        doPathExtensions := res.doPathExtensions,
        allowPathPrepend := res.allowPrependPath);
      touch := Touch(
        touchGesture := res.touchGesture,
        singleTapEsc := res.singleTapEsc,
        zoomBottom := res.zoomBottom,
        quickbarPos := res.quickbarPos);
      lastVersionCode := 0;
    }

    /** The overlay phase, on the current field values; only the fields it
        reads a key for can change. */
    method ReadPrefs(prefs: Prefs)
      modifies this`display, this`keys, this`session, this`paths, this`touch,
        this`lastVersionCode
      ensures Snapshot() == Overlay(old(Snapshot()), prefs)
      ensures Valid() && Snapshot().Clamped()
    {
      display := display.(
        actionBarMode := ReadIntPref(prefs, ACTIONBAR_KEY, display.actionBarMode, ACTION_BAR_MODE_MAX),
        fontSize := ReadIntPref(prefs, FONTSIZE_KEY, display.fontSize, FONT_SIZE_MAX),
        colorId := ReadIntPref(prefs, COLOR_KEY, display.colorId, COLOR_ID_MAX),
        utf8ByDefault := ReadBooleanPref(prefs, UTF8_KEY, display.utf8ByDefault));
      keys := keys.(
        backKeyAction := ReadIntPref(prefs, BACKACTION_KEY, keys.backKeyAction, BACK_KEY_MAX),
        controlKeyId := ReadIntPref(prefs, CONTROLKEY_KEY, keys.controlKeyId, CONTROL_KEY_ID_MAX),
        fnKeyId := ReadIntPref(prefs, FNKEY_KEY, keys.fnKeyId, FN_KEY_ID_MAX),
        useCookedIme := ReadIntPref(prefs, IME_KEY, keys.useCookedIme, IME_MAX));
      session := session.(
        shell := ReadStringPref(prefs, SHELL_KEY, session.shell),
        initialCommand := ReadStringPref(prefs, INITIALCOMMAND_KEY, session.initialCommand),
        termType := ReadStringPref(prefs, TERMTYPE_KEY, session.termType),
        closeOnExit := ReadBooleanPref(prefs, CLOSEONEXIT_KEY, session.closeOnExit));
      paths := paths.(
        verifyPath := ReadBooleanPref(prefs, VERIFYPATH_KEY, paths.verifyPath),
        doPathExtensions := ReadBooleanPref(prefs, PATHEXTENSIONS_KEY, paths.doPathExtensions),
        allowPathPrepend := ReadBooleanPref(prefs, PATHPREPEND_KEY, paths.allowPathPrepend));
      touch := touch.(
        touchGesture := ReadBooleanPref(prefs, TOUCHGESTURE_KEY, touch.touchGesture),
        singleTapEsc := ReadBooleanPref(prefs, SINGLETAPESC_KEY, touch.singleTapEsc),
        zoomBottom := ReadBooleanPref(prefs, ZOOMBOTTOM_KEY, touch.zoomBottom),
        quickbarPos := ReadIntPref(prefs, QUICKBARPOS_KEY, touch.quickbarPos, QUICKBAR_POS_MAX));
      lastVersionCode := GetLong(prefs, LASTVERSION_KEY, 0);
    }

    /** Stores the size as given, unclamped; only the font size changes. */
    method SetFontSize(s: int32)
      modifies this`display
      ensures Snapshot() == old(Snapshot()).(display := old(display).(fontSize := s))
      ensures Valid() <==> old(Valid())
    {
      display := display.(fontSize := s);
    }

    method SetPrependPath(path: Option<string>)
      modifies this`prependPath
      ensures Snapshot() == old(Snapshot()).(prependPath := path)
      ensures Valid() <==> old(Valid())
    {
      prependPath := path;
    }

    method SetAppendPath(path: Option<string>)
      modifies this`appendPath
      ensures Snapshot() == old(Snapshot()).(appendPath := path)
      ensures Valid() <==> old(Valid())
    {
      appendPath := path;
    }

    // -------------------------------------------------------------------
    // Derived reads
    // -------------------------------------------------------------------

    /** The colour scheme row the colour id selects: a foreground and a
        background palette index in [0, 7], never the same, with their ARGB
        colours. */
    function ColorScheme(): (r: seq<int32>)
      reads this
      requires Valid()
      ensures r == COLOR_SCHEMES[display.colorId]
      ensures |r| == 4 && 0 <= r[0] < 8 && 0 <= r[2] < 8 && r[0] != r[2]
    {
      COLOR_SCHEMES[display.colorId]
    }

    /** The key bound to the virtual control key; KEYCODE_NONE exactly for
        the "none" scheme, a platform key code otherwise. */
    function ControlKeyCode(): (r: KeyCode)
      reads this
      requires Valid()
      ensures r == CONTROL_KEY_SCHEMES[keys.controlKeyId]
      ensures r == KEYCODE_NONE <==> keys.controlKeyId == CONTROL_KEY_ID_NONE
      ensures r != KEYCODE_NONE ==> r.KeyEvent?
    {
      CONTROL_KEY_SCHEMES[keys.controlKeyId]
    }

    /** The key bound to the virtual function key; KEYCODE_NONE exactly for
        the "none" scheme, a platform key code otherwise. */
    function FnKeyCode(): (r: KeyCode)
      reads this
      requires Valid()
      ensures r == FN_KEY_SCHEMES[keys.fnKeyId]
      ensures r == KEYCODE_NONE <==> keys.fnKeyId == FN_KEY_ID_NONE
      ensures r != KEYCODE_NONE ==> r.KeyEvent?
    {
      FN_KEY_SCHEMES[keys.fnKeyId]
    }

    /** The character the back key sends: ESC (27), TAB (9), or 0 when the
        back key does not send one. */
    function BackKeyCharacter(): (c: int32)
      reads this
      ensures c == 27 <==> keys.backKeyAction == BACK_KEY_SENDS_ESC
      ensures c == 9 <==> keys.backKeyAction == BACK_KEY_SENDS_TAB
      ensures c == 0 <==> keys.backKeyAction != BACK_KEY_SENDS_ESC && keys.backKeyAction != BACK_KEY_SENDS_TAB
    {
      if keys.backKeyAction == BACK_KEY_SENDS_ESC then 27
      else if keys.backKeyAction == BACK_KEY_SENDS_TAB then 9
      else 0
    }

    /** Whether the back key sends a character: decided by ordinal, so within
        the clamped range it holds exactly for ESC and TAB, exactly when
        BackKeyCharacter is non-zero. */
    function BackKeySendsCharacter(): (b: bool)
      reads this
      ensures b <==> keys.backKeyAction >= BACK_KEY_SENDS_ESC
      ensures 0 <= keys.backKeyAction <= BACK_KEY_MAX ==>
        (b <==> keys.backKeyAction == BACK_KEY_SENDS_ESC || keys.backKeyAction == BACK_KEY_SENDS_TAB)
      ensures 0 <= keys.backKeyAction <= BACK_KEY_MAX ==> (b <==> BackKeyCharacter() != 0)
    {
      keys.backKeyAction >= BACK_KEY_SENDS_ESC
    }

    /** Whether the cooked IME is in use; within the clamped range, exactly
        for flag 1. */
    function UseCookedIME(): (b: bool)
      reads this
      ensures b <==> keys.useCookedIme != 0
      ensures 0 <= keys.useCookedIme <= IME_MAX ==> (b <==> keys.useCookedIme == 1)
    {
      keys.useCookedIme != 0
    }
  }

  /** A font size of "999" loads as 20. The setter then stores 16 as given,
      and afterwards 25, which leaves the scheme ids valid but the font size
      out of range. */
  method FontSizeScenario(res: Defaults) returns (v: VimSettings)
    ensures v.display.fontSize == 25
    ensures v.Valid() && !v.Snapshot().Clamped()
  {
    var prefs := Prefs(map[FONTSIZE_KEY := "999"], map[], map[]);
    v := new VimSettings(res, prefs);
    FontSizeAboveMaxClamps(FromDefaults(res), prefs);
    assert v.display.fontSize == FONT_SIZE_MAX;
    v.SetFontSize(16);
    assert v.display.fontSize == 16 && v.Snapshot().Clamped();
    v.SetFontSize(25);
  }
}
