/** The menus of src/menu.rs: the game-state machine driven by the main-menu
    and settings-menu buttons, and the three settings flags with the colour
    and label of the button that shows each one. */
module Menu {
  import opened Scene
  import opened Input

  datatype GameState = MainMenu | Settings | InGame

  /** The state the game starts in (GameState's #[default]). */
  const InitialState: GameState := MainMenu

  /** Bevy's NextState: a state change requested for the end of the frame. */
  datatype Next = Unchanged | Pending(state: GameState)

  /** The state in force once the frame's requested transition is applied. */
  function ApplyNext(current: GameState, next: Next): (s: GameState)
    ensures next == Unchanged ==> s == current
    ensures next.Pending? ==> s == next.state
  {
    match next
    case Unchanged => current
    case Pending(s) => s
  }

  class NextState {
    var next: Next

    constructor ()
      ensures next == Unchanged
    {
      next := Unchanged;
    }

    /** NextState::set: request s, replacing any earlier request. */
    method Set(s: GameState)
      modifies this
      ensures next == Pending(s)
    {
      next := Pending(s);
    }
  }

  datatype AppExit = Success

  /** EventWriter<AppExit>: the exit events written so far. */
  class ExitWriter {
    var written: seq<AppExit>

    constructor ()
      ensures written == []
    {
      written := [];
    }

    method Write(e: AppExit)
      modifies this
      ensures written == old(written) + [e]
    {
      written := written + [e];
    }
  }

  /** The state main_menu_system requests: the Play loop runs before the
      Settings loop, so a Settings press in the same frame wins. */
  function MainMenuRequest(play: seq<Interaction>, settings: seq<Interaction>, prior: Next): (r: Next)
    ensures Pressed in settings ==> r == Pending(Settings)
    ensures Pressed in play && Pressed !in settings ==> r == Pending(InGame)
    ensures Pressed !in play && Pressed !in settings ==> r == prior
    ensures r != prior ==> r.Pending? && r.state != MainMenu
  {
    var afterPlay := if Pressed in play then Pending(InGame) else prior;
    if Pressed in settings then Pending(Settings) else afterPlay
  }

  function Repeat(e: AppExit, n: nat): (r: seq<AppExit>)
    ensures |r| == n
    ensures forall i :: 0 <= i < n ==> r[i] == e
    decreases n
  {
    if n == 0 then [] else Repeat(e, n - 1) + [e]
  }

  /** main_menu_system: Play requests InGame, Settings requests Settings, and
      Exit writes one AppExit::Success per press without touching the state. */
  method MainMenuSystem(play: seq<Interaction>, settings: seq<Interaction>, exitButton: seq<Interaction>,
                        nextState: NextState, exit: ExitWriter)
    modifies nextState, exit
    ensures nextState.next == MainMenuRequest(play, settings, old(nextState.next))
    ensures exit.written == old(exit.written) + Repeat(Success, CountPressed(exitButton))
  {
    for i := 0 to |play|
      invariant nextState.next == if Pressed in play[..i] then Pending(InGame) else old(nextState.next)
      invariant exit.written == old(exit.written)
    {
      assert play[..i + 1] == play[..i] + [play[i]];
      if play[i] == Pressed {
        nextState.Set(InGame);
      }
    }
    assert play[..|play|] == play;
    ghost var afterPlay := nextState.next;

    for i := 0 to |settings|
      invariant nextState.next == if Pressed in settings[..i] then Pending(Settings) else afterPlay
      invariant exit.written == old(exit.written)
    {
      assert settings[..i + 1] == settings[..i] + [settings[i]];
      if settings[i] == Pressed {
        nextState.Set(Settings);
      }
    }
    assert settings[..|settings|] == settings;

    for i := 0 to |exitButton|
      invariant exit.written == old(exit.written) + Repeat(Success, CountPressed(exitButton[..i]))
      invariant nextState.next == MainMenuRequest(play, settings, old(nextState.next))
    {
      assert exitButton[..i + 1] == exitButton[..i] + [exitButton[i]];
      CountPressedAppend(exitButton[..i], exitButton[i]);
      if exitButton[i] == Pressed {
        exit.Write(Success);
      }
    }
    assert exitButton[..|exitButton|] == exitButton;
  }

  /** The three settings the settings menu toggles. */
  datatype Toggle = MotionBlurToggle | PostProcessToggle | AtmosphericFogToggle

  /** The GameSettings resource. */
  class GameSettings {
    var motionBlurEnabled: bool
    var postProcessingEnabled: bool
    var atmosphericFogEnabled: bool

    /** GameSettings::default(): everything on. */
    constructor Default()
      ensures motionBlurEnabled && postProcessingEnabled && atmosphericFogEnabled
    {
      motionBlurEnabled := true;
      postProcessingEnabled := true;
      atmosphericFogEnabled := true;
    }

    function Flag(t: Toggle): bool
      reads this
    {
      match t
      case MotionBlurToggle => motionBlurEnabled
      case PostProcessToggle => postProcessingEnabled
      case AtmosphericFogToggle => atmosphericFogEnabled
    }

    /** settings.<flag> = !settings.<flag> for the flag of toggle t. */
    method Flip(t: Toggle)
      modifies this
      ensures Flag(t) == !old(Flag(t))
      ensures forall u :: u != t ==> Flag(u) == old(Flag(u))
    {
      match t
      case MotionBlurToggle => motionBlurEnabled := !motionBlurEnabled;
      case PostProcessToggle => postProcessingEnabled := !postProcessingEnabled;
      case AtmosphericFogToggle => atmosphericFogEnabled := !atmosphericFogEnabled;
    }
  }

  const OnColor: Color := Srgb(0.2, 0.8, 0.2)
  const OffColor: Color := Srgb(0.8, 0.2, 0.2)

  /** The background of a toggle button: green when on, red when off. */
  function ToggleColor(on: bool): (c: Color)
    ensures c == OnColor <==> on
    ensures c == OffColor <==> !on
  {
    if on then OnColor else OffColor
  }

  /** The name a toggle's label starts with; it never contains the ':' that
      separates it from the flag's state. */
  function ToggleName(t: Toggle): (n: string)
    ensures |n| > 0 && ':' !in n
  {
    match t
    case MotionBlurToggle => "MOTION BLUR"
    case PostProcessToggle => "POST PROCESSING"
    case AtmosphericFogToggle => "ATMOSPHERIC FOG"
  }

  /** The text of a toggle button: "<NAME>: ON" or "<NAME>: OFF". */
  function LabelText(t: Toggle, on: bool): string {
    ToggleName(t) + ": " + (if on then "ON" else "OFF")
  }

  /** A label is the toggle's name followed by ": ON" exactly when the flag is on,
      and by ": OFF" exactly when it is off. */
  lemma LabelTextParts(t: Toggle, on: bool)
    ensures var s := LabelText(t, on);
      |s| == |ToggleName(t)| + (if on then 4 else 5)
      && s[..|ToggleName(t)|] == ToggleName(t)
      && (s[|ToggleName(t)|..] == ": ON" <==> on)
      && (s[|ToggleName(t)|..] == ": OFF" <==> !on)
  {
    var s := LabelText(t, on);
    assert s[|ToggleName(t)|..] == if on then ": ON" else ": OFF";
  }

  /** A label names exactly one toggle and one state: distinct (toggle, flag)
      pairs never show the same text. */
  lemma LabelTextInjective(t: Toggle, a: bool, u: Toggle, b: bool)
    requires LabelText(t, a) == LabelText(u, b)
    ensures t == u && a == b
  {
    var s := LabelText(t, a);
    assert s[0] == ToggleName(t)[0] == ToggleName(u)[0];
    assert t == u;
    assert |s| == |ToggleName(t)| + (if a then 4 else 5) == |ToggleName(t)| + (if b then 4 else 5);
  }

  /** BackgroundColor of a toggle button. */
  class BackgroundColor {
    var color: Color

    constructor (color: Color)
      ensures this.color == color
    {
      this.color := color;
    }
  }

  /** Text of a toggle button's label. */
  class Text {
    var value: string

    constructor (value: string)
      ensures this.value == value
    {
      this.value := value;
    }
  }

  /** The button of toggle t shows the flag value on: colour and label agree with it. */
  predicate Shows(button: BackgroundColor, text: Text, t: Toggle, on: bool)
    reads button, text
  {
    button.color == ToggleColor(on) && text.value == LabelText(t, on)
  }

  /** setup_settings_menu: each toggle's button is spawned showing the current flag. */
  method SpawnToggle(settings: GameSettings, t: Toggle) returns (button: BackgroundColor, text: Text)
    ensures fresh(button) && fresh(text)
    ensures Shows(button, text, t, settings.Flag(t))
  {
    var on := settings.Flag(t);
    button := new BackgroundColor(if on then OnColor else OffColor);
    text := new Text(LabelText(t, on));
  }

  predicate Odd(n: nat) { n % 2 == 1 }

  /** One toggle's loop in settings_menu_system: each press negates the flag and,
      when the button and its text exist, repaints and relabels them. */
  method HandleToggle(settings: GameSettings, t: Toggle, changes: seq<Interaction>,
                      button: BackgroundColor?, text: Text?)
    modifies settings, button, text
    ensures settings.Flag(t) == (old(settings.Flag(t)) != Odd(CountPressed(changes)))
    ensures forall u :: u != t ==> settings.Flag(u) == old(settings.Flag(u))
    ensures button != null ==>
      button.color == if CountPressed(changes) > 0 then ToggleColor(settings.Flag(t)) else old(button.color)
    ensures text != null ==>
      text.value == if CountPressed(changes) > 0 then LabelText(t, settings.Flag(t)) else old(text.value)
    ensures button != null && text != null && old(Shows(button, text, t, settings.Flag(t))) ==>
      Shows(button, text, t, settings.Flag(t))
  {
    for i := 0 to |changes|
      invariant settings.Flag(t) == (old(settings.Flag(t)) != Odd(CountPressed(changes[..i])))
      invariant forall u :: u != t ==> settings.Flag(u) == old(settings.Flag(u))
      invariant button != null ==>
        button.color == if CountPressed(changes[..i]) > 0 then ToggleColor(settings.Flag(t)) else old(button.color)
      invariant text != null ==>
        text.value == if CountPressed(changes[..i]) > 0 then LabelText(t, settings.Flag(t)) else old(text.value)
    {
      assert changes[..i + 1] == changes[..i] + [changes[i]];
      CountPressedAppend(changes[..i], changes[i]);
      if changes[i] == Pressed {
        settings.Flip(t);
        if button != null {
          button.color := if settings.Flag(t) then OnColor else OffColor;
        }
        if text != null {
          text.value := LabelText(t, settings.Flag(t));
        }
      }
    }
    assert changes[..|changes|] == changes;
  }

  /** settings_menu_system: the three toggle loops, then Back requests MainMenu. */
  method SettingsMenuSystem(settings: GameSettings,
                            motionBlur: seq<Interaction>, postProcess: seq<Interaction>,
                            fog: seq<Interaction>, back: seq<Interaction>,
                            motionBlurButton: BackgroundColor?, motionBlurText: Text?,
                            postProcessButton: BackgroundColor?, postProcessText: Text?,
                            fogButton: BackgroundColor?, fogText: Text?,
                            nextState: NextState)
    requires motionBlurButton != null && postProcessButton != null ==> motionBlurButton != postProcessButton
    requires motionBlurButton != null && fogButton != null ==> motionBlurButton != fogButton
    requires postProcessButton != null && fogButton != null ==> postProcessButton != fogButton
    requires motionBlurText != null && postProcessText != null ==> motionBlurText != postProcessText
    requires motionBlurText != null && fogText != null ==> motionBlurText != fogText
    requires postProcessText != null && fogText != null ==> postProcessText != fogText
    modifies settings, motionBlurButton, motionBlurText, postProcessButton, postProcessText
    modifies fogButton, fogText, nextState
    ensures settings.motionBlurEnabled == (old(settings.motionBlurEnabled) != Odd(CountPressed(motionBlur)))
    ensures settings.postProcessingEnabled == (old(settings.postProcessingEnabled) != Odd(CountPressed(postProcess)))
    ensures settings.atmosphericFogEnabled == (old(settings.atmosphericFogEnabled) != Odd(CountPressed(fog)))
    ensures nextState.next == if Pressed in back then Pending(MainMenu) else old(nextState.next)
  {
    HandleToggle(settings, MotionBlurToggle, motionBlur, motionBlurButton, motionBlurText);
    ghost var mb := settings.Flag(MotionBlurToggle);
    assert settings.Flag(PostProcessToggle) == old(settings.Flag(PostProcessToggle));
    assert settings.Flag(AtmosphericFogToggle) == old(settings.Flag(AtmosphericFogToggle));
    HandleToggle(settings, PostProcessToggle, postProcess, postProcessButton, postProcessText);
    ghost var pp := settings.Flag(PostProcessToggle);
    assert settings.Flag(MotionBlurToggle) == mb;
    assert settings.Flag(AtmosphericFogToggle) == old(settings.Flag(AtmosphericFogToggle));
    HandleToggle(settings, AtmosphericFogToggle, fog, fogButton, fogText);
    assert settings.Flag(MotionBlurToggle) == mb;
    assert settings.Flag(PostProcessToggle) == pp;
    HandleBack(back, nextState);
  }

  /** The Back button's loop in settings_menu_system. */
  method HandleBack(back: seq<Interaction>, nextState: NextState)
    modifies nextState
    ensures nextState.next == BackRequest(back, old(nextState.next))
  {
    for i := 0 to |back|
      invariant nextState.next == if Pressed in back[..i] then Pending(MainMenu) else old(nextState.next)
    {
      assert back[..i + 1] == back[..i] + [back[i]];
      if back[i] == Pressed {
        nextState.Set(MainMenu);
      }
    }
    assert back[..|back|] == back;
  }

  /** A toggle's flag after a frame in which its button changed as in changes:
      it keeps its value exactly when the button was pressed an even number of times. */
  function ToggledFlag(on: bool, changes: seq<Interaction>): (r: bool)
    ensures r == on <==> CountPressed(changes) % 2 == 0
  {
    on != Odd(CountPressed(changes))
  }

  /** Two frames of toggle presses act as one frame with all the presses:
      the flag depends only on the parity of the total, so an even total
      restores it. */
  lemma ToggleFramesCompose(on: bool, a: seq<Interaction>, b: seq<Interaction>)
    ensures ToggledFlag(ToggledFlag(on, a), b) == ToggledFlag(on, a + b)
    ensures CountPressed(a + b) % 2 == 0 ==> ToggledFlag(ToggledFlag(on, a), b) == on
  {
    CountPressedConcat(a, b);
  }

  /** What the Back button's loop requests: MainMenu once it was pressed,
      otherwise whatever was requested before. */
  function BackRequest(back: seq<Interaction>, prior: Next): (r: Next)
    ensures Pressed in back ==> r == Pending(MainMenu)
    ensures Pressed !in back ==> r == prior
  {
    if Pressed in back then Pending(MainMenu) else prior
  }

  /** Navigating the menus: Play enters the game, Settings opens the settings
      menu, no press stays in the main menu, and Back from the settings menu
      returns to the main menu. */
  lemma MenuNavigation(presses: seq<Interaction>)
    requires Pressed in presses
    ensures ApplyNext(InitialState, MainMenuRequest(presses, [], Unchanged)) == InGame
    ensures ApplyNext(InitialState, MainMenuRequest([], presses, Unchanged)) == Settings
    ensures ApplyNext(InitialState, MainMenuRequest([], [], Unchanged)) == MainMenu
    ensures ApplyNext(ApplyNext(InitialState, MainMenuRequest([], presses, Unchanged)),
                      BackRequest(presses, Unchanged)) == MainMenu
  {
  }
}
