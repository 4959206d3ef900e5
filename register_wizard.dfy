/**
 * The registration wizard (eventbuddy_app/app/register.tsx): a step counter
 * that walks through the account form (step 0), four preference sliders
 * (steps 1 to 4) and a welcome screen (step 5), plus the register handler.
 * The session's signUp call and the router are outside the model: what the
 * screen asks of them is recorded in `signUps` and `navigation`, and whether
 * signUp throws is a parameter.
 */
module RegisterWizard {
  import opened Wrappers

  /** What renderStep draws for each step. */
  datatype Screen = AccountForm | EventSizeSlider | InteractivitySlider | NoisinessSlider | CrowdednessSlider | Welcome

  /** The handlers a button can carry. */
  datatype Action = NextStep | HandleRegister | PushHome | GoBack

  datatype Button = Button(caption: string, action: Action)

  datatype Route = Push(path: string) | Back

  /** The arguments of one signUp call. */
  datatype SignUpRequest = SignUpRequest(
    username: string, email: string, phone: string, password: string, buddyName: string,
    eventSize: real, interactivity: real, noisiness: real, crowdedness: real,
    musicStyles: seq<string>, eventTypes: seq<string>)

  /** The last step, the welcome screen. */
  const LastStep := 5

  /** renderStep: a screen for each of the steps 0 to 5, nothing otherwise. */
  function RenderStep(step: int): (s: Option<Screen>)
    ensures s.Some? <==> 0 <= step <= LastStep
    ensures s == Some(Welcome) <==> step == LastStep
    ensures s == Some(AccountForm) <==> step == 0
  {
    if step == 0 then Some(AccountForm)
    else if step == 1 then Some(EventSizeSlider)
    else if step == 2 then Some(InteractivitySlider)
    else if step == 3 then Some(NoisinessSlider)
    else if step == 4 then Some(CrowdednessSlider)
    else if step == 5 then Some(Welcome)
    else None
  }

  /** Different steps draw different screens. */
  lemma RenderStepInjective(i: int, j: int)
    requires RenderStep(i).Some? && RenderStep(i) == RenderStep(j)
    ensures i == j
  {
  }

  /**
   * The buttons under the step, as wired: the forward button exists only
   * below the last step but takes the register handler only at the last step;
   * then "Loslegen" at the last step, "Zurück zum Anmelden" elsewhere.
   */
  function Buttons(step: int): (bs: seq<Button>)
    ensures |bs| == if step < LastStep then 2 else 1
    ensures step < LastStep ==> bs[0] == Button("Weiter", NextStep) && bs[1] == Button("Zurück zum Anmelden", GoBack)
    ensures step == LastStep ==> bs == [Button("Loslegen", PushHome)]
  {
    var forward :=
      if step < LastStep then
        [Button(if step == LastStep then "Account erstellen" else "Weiter",
                if step == LastStep then HandleRegister else NextStep)]
      else [];
    var secondary :=
      if step == LastStep then [Button("Loslegen", PushHome)] else [Button("Zurück zum Anmelden", GoBack)];
    forward + secondary
  }

  /** No step shows a button that runs the register handler. */
  lemma HandleRegisterUnreachable(step: int)
    ensures forall i :: 0 <= i < |Buttons(step)| ==> Buttons(step)[i].action != HandleRegister
  {
  }

  /** The wiring evidently meant: the last slider step offers "Account erstellen". */
  function ButtonsFixed(step: int): (bs: seq<Button>)
    ensures |bs| == if step < LastStep then 2 else 1
    ensures step < LastStep - 1 ==> bs[0] == Button("Weiter", NextStep)
    ensures step == LastStep - 1 ==> bs[0] == Button("Account erstellen", HandleRegister)
    ensures step < LastStep ==> bs[1] == Button("Zurück zum Anmelden", GoBack)
    ensures step == LastStep ==> bs == [Button("Loslegen", PushHome)]
  {
    var forward :=
      if step < LastStep then
        [Button(if step == LastStep - 1 then "Account erstellen" else "Weiter",
                if step == LastStep - 1 then HandleRegister else NextStep)]
      else [];
    var secondary :=
      if step == LastStep then [Button("Loslegen", PushHome)] else [Button("Zurück zum Anmelden", GoBack)];
    forward + secondary
  }

  /** With the corrected wiring exactly one step offers the register handler. */
  lemma HandleRegisterReachableFixed(step: int)
    ensures (exists i :: 0 <= i < |ButtonsFixed(step)| && ButtonsFixed(step)[i].action == HandleRegister)
            <==> step == LastStep - 1
  {
    if step == LastStep - 1 {
      assert ButtonsFixed(step)[0].action == HandleRegister;
    }
  }

  class RegisterScreen {
    var username: string
    var email: string
    var phone: string
    var password: string
    var confirmPassword: string
    var buddyName: string
    var preferredEventSize: real
    var preferredInteractivity: real
    var preferredNoisiness: real
    var preferredCrowdedness: real
    var preferredMusicStyles: seq<string>
    var preferredEventTypes: seq<string>
    var currentStep: int
    /** The signUp calls made so far. */
    var signUps: seq<SignUpRequest>
    /** The router calls made so far. */
    var navigation: seq<Route>

    ghost predicate Valid()
      reads this
    {
      0 <= currentStep <= LastStep
    }

    /** Empty form, sliders at one half, step 0, nothing sent. */
    constructor()
      ensures username == "" && email == "" && phone == "" && password == "" && confirmPassword == "" && buddyName == ""
      ensures preferredEventSize == 0.5 && preferredInteractivity == 0.5
      ensures preferredNoisiness == 0.5 && preferredCrowdedness == 0.5
      ensures preferredMusicStyles == [] && preferredEventTypes == []
      ensures currentStep == 0 && signUps == [] && navigation == []
      ensures Valid()
    {
      username, email, phone, password, confirmPassword, buddyName := "", "", "", "", "", "";
      preferredEventSize, preferredInteractivity := 0.5, 0.5;
      preferredNoisiness, preferredCrowdedness := 0.5, 0.5;
      preferredMusicStyles, preferredEventTypes := [], [];
      currentStep := 0;
      signUps, navigation := [], [];
    }

    /** The text inputs of step 0. */
    method EnterAccount(u: string, e: string, ph: string, pw: string, confirm: string, buddy: string)
      modifies this
      ensures username == u && email == e && phone == ph && password == pw
      ensures confirmPassword == confirm && buddyName == buddy
      ensures currentStep == old(currentStep) && signUps == old(signUps) && navigation == old(navigation)
      ensures preferredEventSize == old(preferredEventSize) && preferredInteractivity == old(preferredInteractivity)
      ensures preferredNoisiness == old(preferredNoisiness) && preferredCrowdedness == old(preferredCrowdedness)
      ensures preferredMusicStyles == old(preferredMusicStyles) && preferredEventTypes == old(preferredEventTypes)
    {
      username, email, phone, password, confirmPassword, buddyName := u, e, ph, pw, confirm, buddy;
    }

    function Request(): SignUpRequest
      reads this
    {
      SignUpRequest(username, email, phone, password, buddyName,
                    preferredEventSize, preferredInteractivity, preferredNoisiness, preferredCrowdedness,
                    preferredMusicStyles, preferredEventTypes)
    }

    /** nextStep: one step forward. */
    method DoNextStep()
      modifies this
      ensures currentStep == old(currentStep) + 1
      ensures signUps == old(signUps) && navigation == old(navigation)
      ensures Request() == old(Request()) && confirmPassword == old(confirmPassword)
    {
      currentStep := currentStep + 1;
    }

    /**
     * handleRegister: nothing is sent when the two passwords differ; otherwise
     * signUp is called with the whole form and, unless it throws, the router
     * goes home.
     */
    method DoHandleRegister(signUpThrows: bool)
      modifies this
      ensures password != confirmPassword ==> signUps == old(signUps) && navigation == old(navigation)
      ensures password == confirmPassword ==> signUps == old(signUps) + [old(Request())]
      ensures password == confirmPassword ==>
                navigation == old(navigation) + (if signUpThrows then [] else [Push("/")])
      ensures currentStep == old(currentStep) && Request() == old(Request())
      ensures confirmPassword == old(confirmPassword)
    {
      if password != confirmPassword {
        return;
      }
      signUps := signUps + [Request()];
      if !signUpThrows {
        navigation := navigation + [Push("/")];
      }
    }

    /** Runs the handler a button carries. */
    method Perform(action: Action, signUpThrows: bool)
      modifies this
      ensures action != HandleRegister ==> signUps == old(signUps)
      ensures action == NextStep ==> currentStep == old(currentStep) + 1 && navigation == old(navigation)
      ensures action == PushHome ==> currentStep == old(currentStep) && navigation == old(navigation) + [Push("/")]
      ensures action == GoBack ==> currentStep == old(currentStep) && navigation == old(navigation) + [Back]
      ensures action == HandleRegister ==> currentStep == old(currentStep)
      ensures action == HandleRegister && password == confirmPassword ==> signUps == old(signUps) + [old(Request())]
      ensures Request() == old(Request()) && confirmPassword == old(confirmPassword)
    {
      match action
      case NextStep => DoNextStep();
      case HandleRegister => DoHandleRegister(signUpThrows);
      case PushHome => navigation := navigation + [Push("/")];
      case GoBack => navigation := navigation + [Back];
    }

    /** A press on a shown button, as wired: the step stays within 0..5 and signUp is never called. */
    method PressShown(i: nat, signUpThrows: bool)
      requires Valid() && i < |Buttons(currentStep)|
      modifies this
      ensures Valid()
      ensures signUps == old(signUps)
      ensures currentStep == old(currentStep) + (if Buttons(old(currentStep))[i].action == NextStep then 1 else 0)
      ensures Request() == old(Request()) && confirmPassword == old(confirmPassword)
    {
      HandleRegisterUnreachable(currentStep);
      Perform(Buttons(currentStep)[i].action, signUpThrows);
    }

    /** A press on a shown button with the corrected wiring. */
    method PressShownFixed(i: nat, signUpThrows: bool)
      requires Valid() && i < |ButtonsFixed(currentStep)|
      modifies this
      ensures Valid()
      ensures currentStep == old(currentStep) + (if ButtonsFixed(old(currentStep))[i].action == NextStep then 1 else 0)
      ensures ButtonsFixed(old(currentStep))[i].action != HandleRegister ==> signUps == old(signUps)
      ensures ButtonsFixed(old(currentStep))[i].action == HandleRegister && password == confirmPassword ==>
                signUps == old(signUps) + [old(Request())]
      ensures Request() == old(Request()) && confirmPassword == old(confirmPassword)
    {
      Perform(ButtonsFixed(currentStep)[i].action, signUpThrows);
    }
  }

  /**
   * Any sequence of presses on shown buttons (an index past the buttons is
   * ignored), after filling in the form, never reaches signUp.
   */
  method AsWrittenNeverSignsUp(u: string, e: string, ph: string, pw: string, buddy: string, presses: seq<nat>)
    returns (calls: seq<SignUpRequest>)
    ensures calls == []
  {
    var screen := new RegisterScreen();
    screen.EnterAccount(u, e, ph, pw, pw, buddy);
    var k := 0;
    while k < |presses|
      invariant 0 <= k <= |presses|
      invariant screen.Valid() && screen.signUps == []
    {
      if presses[k] < |Buttons(screen.currentStep)| {
        screen.PressShown(presses[k], false);
      }
      k := k + 1;
    }
    calls := screen.signUps;
  }

  /**
   * With the corrected wiring, filling in the form with matching passwords and
   * pressing the forward button five times sends the form to signUp once.
   */
  method FixedSignsUp(u: string, e: string, ph: string, pw: string, buddy: string)
    returns (calls: seq<SignUpRequest>)
    ensures calls == [SignUpRequest(u, e, ph, pw, buddy, 0.5, 0.5, 0.5, 0.5, [], [])]
  {
    var screen := new RegisterScreen();
    screen.EnterAccount(u, e, ph, pw, pw, buddy);
    var k := 0;
    while k < LastStep - 1
      invariant 0 <= k <= LastStep - 1
      invariant screen.currentStep == k && screen.signUps == []
      invariant screen.password == pw && screen.confirmPassword == pw
      invariant screen.Request() == SignUpRequest(u, e, ph, pw, buddy, 0.5, 0.5, 0.5, 0.5, [], [])
    {
      screen.PressShownFixed(0, false);
      k := k + 1;
    }
    screen.PressShownFixed(0, false);
    calls := screen.signUps;
  }
}
