# VimTouch settings snapshot

A Dafny model of `VimSettings`, the settings object of the VimTouch Android
terminal. Constructing it runs two load phases:

- The default phase fills every field from compiled-in resource defaults.
  The failsafe shell is captured here, and the shell starts equal to it.
- The overlay phase reads each persisted key from a `SharedPreferences`
  source. The field's current value is the default for that key. Bounded
  integers are stored as text. They are parsed with `Integer.parseInt`, fall
  back to the current value when absent or unparsable, and are clamped to
  `[0, max]`.

After loading, the object serves field reads and a few derived reads: the
colour-scheme row, the key codes of the virtual control and fn keys, whether
the back key sends a character and which one, and the IME flag. Three setters
change the font size and the extra PATH segments.

Files:

- `JavaLang.dfy` (module `JavaLang`): the parts of `java.lang` the code
  relies on. This is Java's `int` and `long`, `Math.min` and `Math.max`,
  `Integer.toString` and `Integer.parseInt`,
  and the round trip between the last two.
- `SharedPrefs.dfy` (module `SharedPrefs`): the preference source. It holds
  one map per value kind, with `getString`, `getBoolean` and `getLong`.
- `VimSettings.dfy` (module `VimTouch`): the keys, the colour and key-code
  tables, and the settings value with its two load phases as pure
  functions. It also holds the lemmas about reloading and the class
  `VimSettings`. The class's constructor and methods are proved to leave
  the object in the state those functions describe.

## Model

| member | source | states |
|---|---|---|
| JavaLang.Argb | src/net/momodalo/app/vimtouch/VimSettings.java:77-83 | A hex colour literal denotes the Java `int` with that 32-bit two's-complement pattern, so `0xff000000` is negative. |
| JavaLang.ParseIntToString | src/net/momodalo/app/vimtouch/VimSettings.java:197-199 | `Integer.parseInt` reads back every `int` that `Integer.toString` writes, negative values and the extremes included. |
| VimTouch.Clamp | src/net/momodalo/app/vimtouch/VimSettings.java:203 | `max(0, min(val, max))` lies in `[0, max]` when `max >= 0`. It is `val` inside the range, `max` above it, and 0 below it. |
| VimTouch.ReadIntPref | src/net/momodalo/app/vimtouch/VimSettings.java:195-205 | The result lies in `[0, max]` whatever the stored string. An absent key and an unparsable string both give the clamped default. A parsable string gives its clamped value. |
| VimTouch.ReadIntPrefMatchesExpression | src/net/momodalo/app/vimtouch/VimSettings.java:197-203 | This by-cases reading equals the source's expression: `parseInt(getString(key, toString(default)))`, with the exception caught and the clamp applied. |
| VimTouch.ReadIntPrefIdempotent | src/net/momodalo/app/vimtouch/VimSettings.java:195-205 | Feeding the result back in as the default, with the same source and bound, gives the same result. |
| VimTouch.ReadStringPref | src/net/momodalo/app/vimtouch/VimSettings.java:207-209 | The stored string if the key is present, otherwise the caller's default. |
| VimTouch.ReadBooleanPref | src/net/momodalo/app/vimtouch/VimSettings.java:211-213 | The stored boolean if the key is present, otherwise the caller's default. |
| VimTouch.FromDefaults | src/net/momodalo/app/vimtouch/VimSettings.java:140-164 | The default phase copies the resource values unclamped. Shell and failsafe shell are both the default shell, the last-seen version is 0 and neither extra path is set. |
| VimTouch.Overlay | src/net/momodalo/app/vimtouch/VimSettings.java:166-193 | Every bounded integer ends in range, so every scheme id indexes its table. The cursor fields, the failsafe shell and both extra paths are unchanged. The last-seen version is the stored long, or 0. |
| VimTouch.Load | src/net/momodalo/app/vimtouch/VimSettings.java:135-138 | Construction gives in-range integers and valid indices. The failsafe shell and the cursor fields are the resource defaults, and no extra path is set. |
| VimTouch.OverlayKeepsAbsentKeys | src/net/momodalo/app/vimtouch/VimSettings.java:166-191 | On an in-range snapshot, every field whose key the source lacks keeps its current value. The overlay does not reset to the compiled-in defaults. |
| VimTouch.OverlayClampsAbsentKeys | src/net/momodalo/app/vimtouch/VimSettings.java:168-190 | With no range assumption, a bounded integer whose key is absent becomes its current value clamped. |
| VimTouch.OverlayEmptyIdentity | src/net/momodalo/app/vimtouch/VimSettings.java:166-191 | Reloading an in-range snapshot from an empty source changes nothing except the last-seen version, which becomes 0. |
| VimTouch.OverlayIdempotent | src/net/momodalo/app/vimtouch/VimSettings.java:166-191 | Reloading twice from the same source gives the same snapshot as reloading once. |
| VimTouch.ReloadKeepsFirstLoad | src/net/momodalo/app/vimtouch/VimSettings.java:166-191 | Across two reloads, every field whose key the second source lacks keeps the value the first reload gave it. |
| VimTouch.LoadWithoutEntries | src/net/momodalo/app/vimtouch/VimSettings.java:135-191 | Constructing from an empty source gives each bounded integer as its resource default clamped. The shell and path options are the resource defaults, and the last-seen version is 0. |
| VimTouch.FontSizeAboveMaxClamps | src/net/momodalo/app/vimtouch/VimSettings.java:170 | A stored font size of "999" loads as 20. |
| VimTouch.ColorBelowZeroClamps | src/net/momodalo/app/vimtouch/VimSettings.java:171 | A stored colour of "-5" loads as scheme 0, the row `{0, BLACK, 7, WHITE}`. |
| VimTouch.UnparsableFallsBack | src/net/momodalo/app/vimtouch/VimSettings.java:196-202 | A stored font size that is not a number leaves the current in-range value, not 0. |
| VimTouch.VimSettings.constructor | src/net/momodalo/app/vimtouch/VimSettings.java:135-138 | The new object's fields are `Load(res, prefs)`: indices valid, integers in range. |
| VimTouch.VimSettings.ReadDefaultPrefs | src/net/momodalo/app/vimtouch/VimSettings.java:140-164 | Afterwards the fields are `FromDefaults(res)`, with the two extra paths still at their previous values. |
| VimTouch.VimSettings.ReadPrefs | src/net/momodalo/app/vimtouch/VimSettings.java:166-193 | Afterwards the fields are `Overlay` of their previous values. So the object is valid and every bounded integer is in range, whatever state it started in. |
| VimTouch.VimSettings.SetFontSize | src/net/momodalo/app/vimtouch/VimSettings.java:231-233 | Only the font size changes, unclamped, and index validity is unaffected. |
| VimTouch.VimSettings.SetPrependPath | src/net/momodalo/app/vimtouch/VimSettings.java:315-317 | Only the prepend path changes, and index validity is unaffected. |
| VimTouch.VimSettings.SetAppendPath | src/net/momodalo/app/vimtouch/VimSettings.java:323-325 | Only the append path changes, and index validity is unaffected. |
| VimTouch.VimSettings.ColorScheme | src/net/momodalo/app/vimtouch/VimSettings.java:239-241 | On a valid object, the row the colour id selects. It has four entries, and its foreground and background palette indices are in `[0, 7]` and differ. |
| VimTouch.VimSettings.ControlKeyCode | src/net/momodalo/app/vimtouch/VimSettings.java:271-273 | On a valid object, the control-key table entry. It is `KEYCODE_NONE` exactly for id 7 and a platform key code otherwise. |
| VimTouch.VimSettings.FnKeyCode | src/net/momodalo/app/vimtouch/VimSettings.java:275-277 | On a valid object, the fn-key table entry. It is `KEYCODE_NONE` exactly for id 7 and a platform key code otherwise. |
| VimTouch.VimSettings.BackKeySendsCharacter | src/net/momodalo/app/vimtouch/VimSettings.java:251-253 | Holds iff the action is at least 3. Within `[0, 4]` that is exactly ESC and TAB, exactly when the back-key character is non-zero. |
| VimTouch.VimSettings.BackKeyCharacter | src/net/momodalo/app/vimtouch/VimSettings.java:255-261 | 27 iff the action is ESC, 9 iff it is TAB, 0 iff it is neither. |
| VimTouch.VimSettings.UseCookedIME | src/net/momodalo/app/vimtouch/VimSettings.java:279-281 | Holds iff the flag is non-zero, which within `[0, 1]` means flag 1. |
| VimTouch.FontSizeScenario | src/net/momodalo/app/vimtouch/VimSettings.java:231-233 | After a load that clamps "999" to 20, `setFontSize(16)` and then `setFontSize(25)` leave 25 stored. Indices stay valid, but the font size is out of range. |

## Left out

- Android `Resources`: the default phase takes a `Defaults` record already in typed form. The `Integer.parseInt` of resource strings at lines 142-150 is not modelled, and neither is the exception a malformed resource would raise.
- Android `SharedPreferences`: modelled as one map per value kind. The `ClassCastException` raised when a key holds a value of another kind is not modelled.
- The `mPrefs` field (lines 24, 167, 192): the source is a parameter of the overlay phase, so there is no reference to store or drop.
- `KeyEvent.KEYCODE_*`: the platform constants stay symbolic. Only `KEYCODE_NONE` has its value, -1.
- `Integer.parseInt`: accepts an optional sign and ASCII decimal digits within the `int` range. Non-ASCII digits, which Java also accepts, are not modelled.
- Plain getters such as `getFontSize` and `getShell` are field reads on the class, not separate members.
- Field layout: the 25 fields are held as five group records plus three single fields: display, keys, shell session, PATH options, touch options, last-seen version, prepend path and append path. Each load phase assigns one group record per step rather than the fields one at a time. Nothing reads a field between those assignments. The one value reused inside a phase is the failsafe shell, copied into the shell, and the model passes it through a local.
- VimTouch.ReadIntPref: its body is the case analysis. The source's expression, with the default's decimal text as the `getString` fallback, is `ReadIntPrefExpression`. `ReadIntPrefMatchesExpression` proves the two equal on all inputs.
- Clamping of defaults: the code clamps even a value it did not find, so an absent key yields the current value clamped. A freshly loaded field therefore equals its compiled-in default only when that default is already in range (see `LoadWithoutEntries`). The model follows the code.
- `null` strings: an unset extra path is `None`. The resource and preference strings are assumed present.
- Concurrency: none in the source.
