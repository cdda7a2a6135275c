/**
 * The two pieces of logic in the application windows: the password check of
 * the login dialog, and the main window's font-size buttons, which step the
 * point size within fixed bounds and record it in the settings. Widgets,
 * layouts and message boxes are not modelled.
 */
module App {

  import opened PyValues
  import opened Config

  // ---------------------------------------------------------------------------
  // Login
  // ---------------------------------------------------------------------------

  /**
   * The password check of the login dialog: the entered text must equal one of
   * the two configured secrets. A missing secret reads as `None`, which no
   * entered text equals.
   */
  predicate IsAcceptedPassword(settings: map<string, Value>, password: string)
  {
    Lookup(settings, "default_password", PyNone) == PyStr(password)
    || Lookup(settings, "super_password", PyNone) == PyStr(password)
  }

  /** With the default settings, exactly "123" and "admin123" log in. */
  lemma DefaultLogin(password: string)
    ensures IsAcceptedPassword(DefaultConfig, password) <==> password == "123" || password == "admin123"
  {
    DefaultSecrets();
  }

  /** Settings that carry neither secret as a string admit nobody. */
  lemma NoSecretNoLogin(settings: map<string, Value>, password: string)
    requires "default_password" !in settings || !settings["default_password"].PyStr?
    requires "super_password" !in settings || !settings["super_password"].PyStr?
    ensures !IsAcceptedPassword(settings, password)
  {
  }

  class LoginWindow {
    /** The text of the password field. */
    var passwordInput: string
    /** Whether the dialog has been accepted. */
    var accepted: bool
    /** The settings the secrets are read from. */
    const settings: ConfigManager

    constructor (settings: ConfigManager)
      ensures passwordInput == "" && !accepted && this.settings == settings
    {
      passwordInput := "";
      accepted := false;
      this.settings := settings;
    }

    /**
     * `login`: accept the dialog when the entered password is one of the
     * secrets; otherwise leave it open and clear the password field.
     */
    method Login()
      modifies this
      ensures IsAcceptedPassword(settings.config, old(passwordInput)) ==>
        accepted && passwordInput == old(passwordInput)
      ensures !IsAcceptedPassword(settings.config, old(passwordInput)) ==>
        accepted == old(accepted) && passwordInput == ""
    {
      var password := passwordInput;
      if settings.Get("default_password", PyNone) == PyStr(password)
        || settings.Get("super_password", PyNone) == PyStr(password)
      {
        accepted := true;
      } else {
        passwordInput := "";
      }
    }
  }

  // ---------------------------------------------------------------------------
  // Font size
  // ---------------------------------------------------------------------------

  const MinFontSize: int := 6
  const MaxFontSize: int := 30
  const FontSizeKey: string := "font_size"

  /** The two font buttons of the toolbar. */
  datatype FontAction = Smaller | Larger

  /**
   * Qt's `setPointSize`: a positive request becomes the point size, any other
   * request is ignored and the font keeps its size.
   */
  function SetPointSize(current: int, requested: int): int
  {
    if requested > 0 then requested else current
  }

  /**
   * Whether a press acts: the handler compares the reported point size with
   * the bound. A pixel-sized font reports -1 and so passes the test of
   * `font_larger`.
   */
  predicate Pressed(size: int, action: FontAction)
  {
    match action
    case Smaller => size > MinFontSize
    case Larger => size < MaxFontSize
  }

  /** The size a press asks for, one point away from the reported size. */
  function Requested(size: int, action: FontAction): int
  {
    match action
    case Smaller => size - 1
    case Larger => size + 1
  }

  /** The point size after one button press. */
  function Step(size: int, action: FontAction): int
  {
    if Pressed(size, action) then SetPointSize(size, Requested(size, action)) else size
  }

  /**
   * The settings after one button press: a press that acts records the
   * requested size, whether or not the font accepted it.
   */
  function StepSettings(settings: map<string, Value>, size: int, action: FontAction): map<string, Value>
  {
    if Pressed(size, action) then settings[FontSizeKey := PyInt(Requested(size, action))] else settings
  }

  /** The point size after a sequence of presses. */
  function Run(size: int, actions: seq<FontAction>): int
    decreases |actions|
  {
    if actions == [] then size else Run(Step(size, actions[0]), actions[1..])
  }

  /** The settings after a sequence of presses. */
  function RunSettings(settings: map<string, Value>, size: int, actions: seq<FontAction>): map<string, Value>
    decreases |actions|
  {
    if actions == [] then settings
    else RunSettings(StepSettings(settings, size, actions[0]), Step(size, actions[0]), actions[1..])
  }

  /** The settings record `size` as the font size. */
  predicate Mirrors(settings: map<string, Value>, size: int)
  {
    FontSizeKey in settings && settings[FontSizeKey] == PyInt(size)
  }

  /**
   * One press moves the size by at most one point and never across a bound;
   * a font with a point size keeps one.
   */
  lemma StepBounds(size: int, action: FontAction)
    ensures -1 <= Step(size, action) - size <= 1
    ensures MinFontSize <= size <= MaxFontSize ==> MinFontSize <= Step(size, action) <= MaxFontSize
    ensures action == Smaller ==> (Step(size, action) == size - 1 <==> size > MinFontSize)
    ensures action == Larger ==> (Step(size, action) == size + 1 <==> 0 <= size < MaxFontSize)
    ensures size >= 1 ==> Step(size, action) >= 1
  {
  }

  /** From a size within the bounds, any sequence of presses stays within the bounds. */
  lemma {:induction false} RunStaysInBounds(size: int, actions: seq<FontAction>)
    requires MinFontSize <= size <= MaxFontSize
    ensures MinFontSize <= Run(size, actions) <= MaxFontSize
    decreases |actions|
  {
    if actions != [] {
      StepBounds(size, actions[0]);
      RunStaysInBounds(Step(size, actions[0]), actions[1..]);
    }
  }

  /**
   * For a font with a point size, settings that record the current size keep
   * recording it, whatever the presses.
   */
  lemma {:induction false} RunKeepsMirror(settings: map<string, Value>, size: int, actions: seq<FontAction>)
    requires size >= 1 && Mirrors(settings, size)
    ensures Mirrors(RunSettings(settings, size, actions), Run(size, actions))
    decreases |actions|
  {
    if actions != [] {
      StepBounds(size, actions[0]);
      RunKeepsMirror(StepSettings(settings, size, actions[0]), Step(size, actions[0]), actions[1..]);
    }
  }

  /** Presses only ever touch the font-size entry of the settings. */
  lemma {:induction false} RunTouchesOnlyFontSize(settings: map<string, Value>, size: int,
                                                 actions: seq<FontAction>, key: string)
    requires key != FontSizeKey
    ensures key in RunSettings(settings, size, actions) <==> key in settings
    ensures key in settings ==> RunSettings(settings, size, actions)[key] == settings[key]
    decreases |actions|
  {
    if actions != [] {
      RunTouchesOnlyFontSize(StepSettings(settings, size, actions[0]), Step(size, actions[0]), actions[1..], key);
    }
  }

  /**
   * A pixel-sized font reports -1: no press changes it, `font_smaller` never
   * acts, and every `font_larger` press records 0 as the font size.
   */
  lemma {:induction false} PixelFontPresses(settings: map<string, Value>, actions: seq<FontAction>)
    ensures Run(-1, actions) == -1
    ensures Larger in actions ==> RunSettings(settings, -1, actions) == settings[FontSizeKey := PyInt(0)]
    ensures Larger !in actions ==> RunSettings(settings, -1, actions) == settings
    decreases |actions|
  {
    if actions != [] {
      var next := StepSettings(settings, -1, actions[0]);
      assert actions == [actions[0]] + actions[1..];
      PixelFontPresses(next, actions[1..]);
      if actions[0] == Larger {
        assert next == settings[FontSizeKey := PyInt(0)];
        assert next[FontSizeKey := PyInt(0)] == next;
      }
    }
  }

  /**
   * Below the upper bound, enlarging then shrinking restores the size and
   * records it; settings that recorded the size come back unchanged.
   */
  lemma LargerThenSmaller(settings: map<string, Value>, size: int)
    requires MinFontSize <= size < MaxFontSize
    ensures Run(size, [Larger, Smaller]) == size
    ensures RunSettings(settings, size, [Larger, Smaller]) == settings[FontSizeKey := PyInt(size)]
    ensures Mirrors(settings, size) ==> RunSettings(settings, size, [Larger, Smaller]) == settings
  {
    var larger := settings[FontSizeKey := PyInt(size + 1)];
    assert [Larger, Smaller][1..] == [Smaller] && [Smaller][1..] == [];
    assert Run(size, [Larger, Smaller]) == Run(size + 1, [Smaller]) == Run(size, []);
    assert RunSettings(settings, size, [Larger, Smaller]) == RunSettings(larger, size + 1, [Smaller]);
    assert RunSettings(larger, size + 1, [Smaller]) == RunSettings(larger[FontSizeKey := PyInt(size)], size, []);
    assert larger[FontSizeKey := PyInt(size)] == settings[FontSizeKey := PyInt(size)];
  }

  class MainWindow {
    /** The point size of the window font; -1 for a pixel-sized font. */
    var fontSize: int
    /** The settings the size is recorded in. */
    const settings: ConfigManager

    /** The window starts with the platform's font size; the recorded size is not applied. */
    constructor (settings: ConfigManager, initialFontSize: int)
      ensures fontSize == initialFontSize && this.settings == settings
    {
      fontSize := initialFontSize;
      this.settings := settings;
    }

    /** `font_smaller`: above the lower bound, ask for one point less and record it. */
    method FontSmaller()
      modifies this, settings
      ensures fontSize == Step(old(fontSize), Smaller)
      ensures settings.config == StepSettings(old(settings.config), old(fontSize), Smaller)
      ensures settings.file == if Pressed(old(fontSize), Smaller) && settings.writable
                               then Json(settings.config) else old(settings.file)
    {
      var currentSize := fontSize;
      if currentSize > MinFontSize {
        fontSize := SetPointSize(currentSize, currentSize - 1);
        settings.Set(FontSizeKey, PyInt(currentSize - 1));
      }
    }

    /** `font_larger`: below the upper bound, ask for one point more and record it. */
    method FontLarger()
      modifies this, settings
      ensures fontSize == Step(old(fontSize), Larger)
      ensures settings.config == StepSettings(old(settings.config), old(fontSize), Larger)
      ensures settings.file == if Pressed(old(fontSize), Larger) && settings.writable
                               then Json(settings.config) else old(settings.file)
    {
      var currentSize := fontSize;
      if currentSize < MaxFontSize {
        fontSize := SetPointSize(currentSize, currentSize + 1);
        settings.Set(FontSizeKey, PyInt(currentSize + 1));
      }
    }
  }
}
