/** The spin button's state machine and the controls the GUI manager keeps.
    The controls come from a GUI layout loaded over the network; the model
    takes the controls that layout held as a parameter and keeps each one
    as a value owned by the manager. Labels, the cursor style and the
    background image are display only and are not modelled. */
module Gui {
  import opened SharedUtils

  datatype Option<T> = None | Some(value: T)

  /** `ButtonStates`. */
  datatype ButtonState = Normal | Hover | Pressed | Disabled

  /** The image shown on the button: one per state, or whatever the layout
      set before the manager first painted it. */
  datatype ButtonImage = FromLayout | SpinButton | SpinButtonHover | SpinButtonDown | SpinButtonDisabled

  /** The parts of the library controls the manager reads or writes. */
  datatype ButtonControl = ButtonControl(isEnabled: bool)
  datatype ImageControl = ImageControl(source: ButtonImage)
  datatype CheckBoxControl = CheckBoxControl(isChecked: bool)
  datatype SliderControl = SliderControl(minimum: int, maximum: int)

  /** The named controls a loaded layout holds (`getControlByName` answers
      `null` for a missing one). */
  datatype Layout = Layout(button: Option<ButtonControl>, image: Option<ImageControl>, checkBox: Option<CheckBoxControl>)

  /** Bet slider range set by `setupControls`. */
  const BET_MINIMUM: int := 1
  const BET_MAXIMUM: int := 100

  /** The image `updateButtonImage` shows for a state. */
  function ImageFor(s: ButtonState): (img: ButtonImage)
    ensures img != FromLayout
  {
    match s
    case Normal => SpinButton
    case Hover => SpinButtonHover
    case Pressed => SpinButtonDown
    case Disabled => SpinButtonDisabled
  }

  /** Each state has its own image, so the image tells the state. */
  lemma ImagesDistinct(s: ButtonState, t: ButtonState)
    ensures ImageFor(s) == ImageFor(t) <==> s == t
  {
  }

  /** What the manager knows about the button: its state and the two
      controls that show it. */
  datatype ButtonUi = ButtonUi(state: ButtonState, button: Option<ButtonControl>, image: Option<ImageControl>)

  /** `changeButtonState(s)`: set the state, then `updateButtonImage`, which
      only acts when both controls exist. */
  function Change(ui: ButtonUi, s: ButtonState): (r: ButtonUi)
    ensures r.state == s
    ensures !(ui.button.Some? && ui.image.Some?) ==> r.button == ui.button && r.image == ui.image
    ensures ui.button.Some? && ui.image.Some? ==>
              && r.button.Some? && r.image == Some(ImageControl(ImageFor(s)))
              && (s == Normal ==> r.button.value.isEnabled)
              && (s == Disabled ==> !r.button.value.isEnabled)
              && (s == Hover || s == Pressed ==> r.button == ui.button)
  {
    if ui.button.Some? && ui.image.Some? then
      match s
      case Normal => ButtonUi(s, Some(ButtonControl(true)), Some(ImageControl(SpinButton)))
      case Hover => ButtonUi(s, ui.button, Some(ImageControl(SpinButtonHover)))
      case Pressed => ButtonUi(s, ui.button, Some(ImageControl(SpinButtonDown)))
      case Disabled => ButtonUi(s, Some(ButtonControl(false)), Some(ImageControl(SpinButtonDisabled)))
    else
      ui.(state := s)
  }

  /** The events the button reacts to: the four pointer observers and the
      timer that `buttonPressedToggle` starts. */
  datatype ButtonEvent = PointerEnter | PointerOut | PointerDown | PointerUp | EnableTimer

  /** One event handled. */
  function Step(ui: ButtonUi, ev: ButtonEvent): ButtonUi
  {
    match ev
    case PointerEnter => if ui.state == Normal then Change(ui, Hover) else ui
    case PointerOut => if ui.state == Hover then Change(ui, Normal) else ui
    case PointerDown => Change(ui, Pressed)
    case PointerUp => Change(ui, Disabled)
    case EnableTimer => Change(ui, Normal)
  }

  /** The states the events lead to: enter only leaves Normal (for Hover),
      out only leaves Hover (for Normal), down always gives Pressed, up
      always Disabled and the timer always Normal. */
  lemma StepStates(ui: ButtonUi, ev: ButtonEvent)
    ensures ev == PointerEnter ==> Step(ui, ev).state == if ui.state == Normal then Hover else ui.state
    ensures ev == PointerOut ==> Step(ui, ev).state == if ui.state == Hover then Normal else ui.state
    ensures ev == PointerDown ==> Step(ui, ev).state == Pressed
    ensures ev == PointerUp ==> Step(ui, ev).state == Disabled
    ensures ev == EnableTimer ==> Step(ui, ev).state == Normal
    ensures Step(ui, ev).state == Hover && ui.state != Hover ==> ui.state == Normal && ev == PointerEnter
  {
  }

  /** Events handled in order. */
  function Run(ui: ButtonUi, evs: seq<ButtonEvent>): ButtonUi
    decreases |evs|
  {
    if evs == [] then ui else Run(Step(ui, evs[0]), evs[1..])
  }

  /** Once both controls exist and the button has been painted: the image
      shows the state, the button is enabled in Normal and Hover and
      disabled in Disabled. */
  predicate Consistent(ui: ButtonUi)
  {
    ui.button.Some? && ui.image.Some? ==>
      && ui.image.value.source == ImageFor(ui.state)
      && (ui.state == Normal || ui.state == Hover ==> ui.button.value.isEnabled)
      && (ui.state == Disabled ==> !ui.button.value.isEnabled)
  }

  lemma StepConsistent(ui: ButtonUi, ev: ButtonEvent)
    requires Consistent(ui)
    ensures Consistent(Step(ui, ev))
  {
  }

  /** No sequence of events breaks consistency. */
  lemma {:induction false} RunConsistent(ui: ButtonUi, evs: seq<ButtonEvent>)
    requires Consistent(ui)
    ensures Consistent(Run(ui, evs))
    decreases |evs|
  {
    if evs != [] {
      StepConsistent(ui, evs[0]);
      RunConsistent(Step(ui, evs[0]), evs[1..]);
    }
  }

  /** A release followed by its timer leaves the button Normal and, when
      both controls exist, enabled; whatever state it was in before. */
  lemma ReleaseThenTimerEnables(ui: ButtonUi)
    ensures Run(ui, [PointerUp, EnableTimer]).state == Normal
    ensures ui.button.Some? && ui.image.Some? ==>
              Run(ui, [PointerUp, EnableTimer]).button == Some(ButtonControl(true))
  {
    assert [PointerUp, EnableTimer][1..] == [EnableTimer];
    assert [EnableTimer][1..] == [];
  }

  /** Every bet the slider can send rounds to a bet in the slider's range. */
  lemma SliderBetInRange(v: real)
    requires BET_MINIMUM as real <= v <= BET_MAXIMUM as real
    ensures BET_MINIMUM <= Round(v) <= BET_MAXIMUM
  {
  }

  class GUIManager {
    var buttonState: ButtonState
    var buttonCtrl: Option<ButtonControl>
    var imageCtrl: Option<ImageControl>
    var checkBox: Option<CheckBoxControl>
    var betSlider: Option<SliderControl>
    /** The pointer observers are registered on the button. */
    var handlersAttached: bool
    /** Re-enable timers started by `buttonPressedToggle` that have not fired. */
    var pendingEnableTimers: nat

    /** The button part of the manager's state. */
    function Ui(): ButtonUi
      reads this
    {
      ButtonUi(buttonState, buttonCtrl, imageCtrl)
    }

    /** Normal state, no controls. */
    constructor ()
      ensures buttonState == Normal
      ensures buttonCtrl == None && imageCtrl == None && checkBox == None && betSlider == None
      ensures !handlersAttached && pendingEnableTimers == 0
    {
      buttonState := Normal;
      buttonCtrl := None;
      imageCtrl := None;
      checkBox := None;
      betSlider := None;
      handlersAttached := false;
      pendingEnableTimers := 0;
    }

    /** Take the controls of the loaded layout (`None`: no layout loaded)
        and give the bet slider its range. */
    method SetupControls(layout: Option<Layout>)
      modifies this`buttonCtrl, this`imageCtrl, this`checkBox, this`betSlider
      ensures layout.None? ==> buttonCtrl == old(buttonCtrl) && imageCtrl == old(imageCtrl)
                               && checkBox == old(checkBox) && betSlider == old(betSlider)
      ensures layout.Some? ==> buttonCtrl == layout.value.button && imageCtrl == layout.value.image
                               && checkBox == layout.value.checkBox
                               && betSlider == Some(SliderControl(BET_MINIMUM, BET_MAXIMUM))
    {
      if layout.Some? {
        buttonCtrl := layout.value.button;
        imageCtrl := layout.value.image;
        checkBox := layout.value.checkBox;
        betSlider := Some(SliderControl(BET_MINIMUM, BET_MAXIMUM));
      }
    }

    /** With a button: paint it Normal and register the pointer observers. */
    method SetupButton()
      modifies this`buttonState, this`buttonCtrl, this`imageCtrl, this`handlersAttached
      ensures old(buttonCtrl).None? ==> Ui() == old(Ui()) && handlersAttached == old(handlersAttached)
      ensures old(buttonCtrl).Some? ==> Ui() == Change(old(Ui()), Normal) && handlersAttached
      ensures old(buttonCtrl).Some? ==> Consistent(Ui())
    {
      if buttonCtrl.Some? {
        ChangeButtonState(Normal);
        SetButtonObservables();
      }
    }

    /** Register the pointer observers, when there is a button. */
    method SetButtonObservables()
      modifies this`handlersAttached
      ensures handlersAttached == (old(handlersAttached) || buttonCtrl.Some?)
    {
      if buttonCtrl.Some? {
        handlersAttached := true;
      }
    }

    /** Set the state and repaint. */
    method ChangeButtonState(state: ButtonState)
      modifies this`buttonState, this`buttonCtrl, this`imageCtrl
      ensures Ui() == Change(old(Ui()), state)
    {
      buttonState := state;
      UpdateButtonImage();
    }

    /** Show the state's image; enable the button in Normal and disable it
        in Disabled. Nothing happens unless both controls exist. */
    method UpdateButtonImage()
      modifies this`buttonCtrl, this`imageCtrl
      ensures Ui() == Change(old(Ui()), buttonState)
    {
      if buttonCtrl.Some? && imageCtrl.Some? {
        match buttonState {
          case Normal =>
            buttonCtrl := Some(buttonCtrl.value.(isEnabled := true));
            imageCtrl := Some(imageCtrl.value.(source := SpinButton));
          case Hover =>
            imageCtrl := Some(imageCtrl.value.(source := SpinButtonHover));
          case Pressed =>
            imageCtrl := Some(imageCtrl.value.(source := SpinButtonDown));
          case Disabled =>
            buttonCtrl := Some(buttonCtrl.value.(isEnabled := false));
            imageCtrl := Some(imageCtrl.value.(source := SpinButtonDisabled));
        }
      }
    }

    /** Pointer-enter observer. */
    method OnPointerEnter()
      requires handlersAttached
      modifies this`buttonState, this`buttonCtrl, this`imageCtrl
      ensures Ui() == Step(old(Ui()), PointerEnter)
    {
      if buttonState == Normal {
        ChangeButtonState(Hover);
      }
    }

    /** Pointer-out observer. */
    method OnPointerOut()
      requires handlersAttached
      modifies this`buttonState, this`buttonCtrl, this`imageCtrl
      ensures Ui() == Step(old(Ui()), PointerOut)
    {
      if buttonState == Hover {
        ChangeButtonState(Normal);
      }
    }

    /** Pointer-down observer. */
    method OnPointerDown()
      requires handlersAttached
      modifies this`buttonState, this`buttonCtrl, this`imageCtrl
      ensures Ui() == Step(old(Ui()), PointerDown)
    {
      ChangeButtonState(Pressed);
    }

    /** Pointer-up observer, up to the call of the action (which the game
        makes after this returns). */
    method OnPointerUp()
      requires handlersAttached
      modifies this`buttonState, this`buttonCtrl, this`imageCtrl, this`pendingEnableTimers
      ensures Ui() == Step(old(Ui()), PointerUp)
      ensures pendingEnableTimers == old(pendingEnableTimers) + 1
    {
      ButtonPressedToggle();
    }

    /** Disable the button and start the timer that re-enables it. */
    method ButtonPressedToggle()
      modifies this`buttonState, this`buttonCtrl, this`imageCtrl, this`pendingEnableTimers
      ensures Ui() == Step(old(Ui()), PointerUp)
      ensures buttonState == Disabled
      ensures pendingEnableTimers == old(pendingEnableTimers) + 1
    {
      ChangeButtonState(Disabled);
      pendingEnableTimers := pendingEnableTimers + 1;
    }

    /** One re-enable timer fires (3600 ms after its toggle). */
    method EnableTimerFires()
      requires pendingEnableTimers > 0
      modifies this`buttonState, this`buttonCtrl, this`imageCtrl, this`pendingEnableTimers
      ensures Ui() == Step(old(Ui()), EnableTimer)
      ensures buttonState == Normal
      ensures pendingEnableTimers == old(pendingEnableTimers) - 1
    {
      ChangeButtonState(Normal);
      pendingEnableTimers := pendingEnableTimers - 1;
    }
  }
}
