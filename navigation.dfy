/** The application shell: a navigation stack of screen frames, the view
    router that turns the top frame into the active screen, and the
    dark-mode flag. */
module Navigation {
  import opened Wrappers

  /** The closed set of screens. */
  datatype Screen =
    | Login
    | ServiceOrderList
    | ServiceOrderDetail
    | ExecuteServiceOrder
    | EquipmentList
    | EquipmentDetail
    | Profile
    | NewServiceOrder

  /** The parameter bag `{ serviceOrderId?, equipmentId? }`. */
  datatype Params = Params(serviceOrderId: Option<string>, equipmentId: Option<string>)

  /** One stack entry: a screen and its optional parameter bag. */
  datatype Frame = Frame(screen: Screen, params: Option<Params>)

  /** `{ serviceOrderId: id }` */
  function OrderParams(id: string): Option<Params> { Some(Params(Some(id), None)) }

  /** `{ equipmentId: id }` */
  function EquipmentParams(id: string): Option<Params> { Some(Params(None, Some(id))) }

  /** The frame the application starts with: the login screen, no parameters. */
  const Root := Frame(Login, None)

  const InitialStack: seq<Frame> := [Root]

  /** `[...stack, frame]` */
  function Pushed(stack: seq<Frame>, f: Frame): (r: seq<Frame>)
    ensures |r| == |stack| + 1
    ensures r[..|stack|] == stack && r[|stack|] == f
  {
    stack + [f]
  }

  /** `stack.length > 1 ? stack.slice(0, -1) : stack` */
  function Popped(stack: seq<Frame>): (r: seq<Frame>)
    ensures |stack| > 1 ==> |r| == |stack| - 1 && r + [stack[|stack| - 1]] == stack
    ensures |stack| <= 1 ==> r == stack
  {
    if |stack| > 1 then stack[..|stack| - 1] else stack
  }

  /** The active frame: the last one. */
  function Current(stack: seq<Frame>): (f: Frame)
    requires |stack| >= 1
    ensures stack == stack[..|stack| - 1] + [f]
  {
    stack[|stack| - 1]
  }

  /** What a button handler does to the stack. */
  datatype Effect = Push(frame: Frame) | Pop | NoOp

  function Apply(stack: seq<Frame>, e: Effect): seq<Frame>
  {
    match e
    case Push(f) => Pushed(stack, f)
    case Pop => Popped(stack)
    case NoOp => stack
  }

  /** The stack after a sequence of effects, applied first to last. */
  function Run(stack: seq<Frame>, effects: seq<Effect>): seq<Frame>
    decreases |effects|
  {
    if |effects| == 0 then stack else Run(Apply(stack, effects[0]), effects[1..])
  }

  /** Popping `n` times. */
  function PopTimes(stack: seq<Frame>, n: nat): seq<Frame>
  {
    if n == 0 then stack else PopTimes(Popped(stack), n - 1)
  }

  /** Going back after navigating restores the previous stack exactly. */
  lemma PopAfterPush(stack: seq<Frame>, f: Frame)
    requires |stack| >= 1
    ensures Popped(Pushed(stack, f)) == stack
  {
  }

  /** Going back at the root does nothing, however often it is repeated. */
  lemma {:induction false} PopAtRootIdempotent(stack: seq<Frame>, n: nat)
    requires |stack| == 1
    ensures PopTimes(stack, n) == stack
  {
    if n > 0 { PopAtRootIdempotent(Popped(stack), n - 1); }
  }

  /** No sequence of effects empties a non-empty stack or replaces its bottom frame. */
  lemma {:induction false} RunKeepsRoot(stack: seq<Frame>, effects: seq<Effect>)
    requires |stack| >= 1
    ensures |Run(stack, effects)| >= 1
    ensures Run(stack, effects)[0] == stack[0]
    decreases |effects|
  {
    if |effects| > 0 {
      var next := Apply(stack, effects[0]);
      assert |next| >= 1 && next[0] == stack[0];
      RunKeepsRoot(next, effects[1..]);
    }
  }

  /** From the initial stack every reachable stack is non-empty, so the active
      frame is always defined, and its bottom frame is the login screen. */
  lemma ReachableStacks(effects: seq<Effect>)
    ensures |Run(InitialStack, effects)| >= 1
    ensures Run(InitialStack, effects)[0] == Root
  {
    RunKeepsRoot(InitialStack, effects);
  }

  /** The screen the router activates, with the props it forwards. */
  datatype View =
    | LoginView
    | ServiceOrderListView
    | ServiceOrderDetailView(serviceOrderId: Option<string>)
    | ExecuteServiceOrderView(serviceOrderId: Option<string>)
    | EquipmentListView
    | EquipmentDetailView(equipmentId: Option<string>)
    | ProfileView(isDarkMode: bool)
    | NewServiceOrderView

  function ScreenOf(v: View): Screen
  {
    match v
    case LoginView => Login
    case ServiceOrderListView => ServiceOrderList
    case ServiceOrderDetailView(_) => ServiceOrderDetail
    case ExecuteServiceOrderView(_) => ExecuteServiceOrder
    case EquipmentListView => EquipmentList
    case EquipmentDetailView(_) => EquipmentDetail
    case ProfileView(_) => Profile
    case NewServiceOrderView => NewServiceOrder
  }

  /** `params?.serviceOrderId` */
  function ServiceOrderIdOf(p: Option<Params>): Option<string>
  {
    if p.Some? then p.value.serviceOrderId else None
  }

  /** `params?.equipmentId` */
  function EquipmentIdOf(p: Option<Params>): Option<string>
  {
    if p.Some? then p.value.equipmentId else None
  }

  /** `renderScreen`: the screen named by the frame, given the order id, the
      equipment id or the dark-mode flag where it takes one. The switch is
      exhaustive over the closed set of screens, so the source's default
      branch (the login screen) cannot be taken. */
  function RenderScreen(f: Frame, isDarkMode: bool): (v: View)
    ensures ScreenOf(v) == f.screen
    ensures v.ServiceOrderDetailView? || v.ExecuteServiceOrderView? ==> v.serviceOrderId == ServiceOrderIdOf(f.params)
    ensures v.EquipmentDetailView? ==> v.equipmentId == EquipmentIdOf(f.params)
    ensures v.ProfileView? ==> v.isDarkMode == isDarkMode
  {
    match f.screen
    case Login => LoginView
    case ServiceOrderList => ServiceOrderListView
    case ServiceOrderDetail => ServiceOrderDetailView(ServiceOrderIdOf(f.params))
    case ExecuteServiceOrder => ExecuteServiceOrderView(ServiceOrderIdOf(f.params))
    case EquipmentList => EquipmentListView
    case EquipmentDetail => EquipmentDetailView(EquipmentIdOf(f.params))
    case Profile => ProfileView(isDarkMode)
    case NewServiceOrder => NewServiceOrderView
  }

  /** A frame pushed without a parameter bag gives its screen an undefined id. */
  lemma RenderWithoutParams(s: Screen, isDarkMode: bool)
    ensures var v := RenderScreen(Frame(s, None), isDarkMode);
      (v.ServiceOrderDetailView? || v.ExecuteServiceOrderView? ==> v.serviceOrderId.None?)
      && (v.EquipmentDetailView? ==> v.equipmentId.None?)
  {
  }

  /** `handleLogin` on the login screen: push the service-order list. */
  function LoginEffect(): Effect { Push(Frame(ServiceOrderList, None)) }

  /** `handleLogout` on the profile screen: push the login screen. */
  function LogoutEffect(): Effect { Push(Frame(Login, None)) }

  /** Logging out does not reset the stack: the history stays below the new
      login frame, and going back from it returns to where logout happened. */
  lemma LogoutKeepsHistory(stack: seq<Frame>)
    requires |stack| >= 1
    ensures var after := Apply(stack, LogoutEffect());
      |after| == |stack| + 1 && Current(after) == Root && Popped(after) == stack
  {
  }

  /** The start-up scenario: log in, go back, go back again. */
  lemma LoginThenBackTwice()
    ensures Current(Run(InitialStack, [LoginEffect()])).screen == ServiceOrderList
    ensures Run(InitialStack, [LoginEffect(), Pop]) == InitialStack
    ensures Run(InitialStack, [LoginEffect(), Pop, Pop]) == InitialStack
  {
  }

  /** The application component's state: the navigation stack and the
      dark-mode flag. */
  class App {
    var navigationStack: seq<Frame>
    var isDarkMode: bool

    ghost predicate Valid()
      reads this
    {
      |navigationStack| >= 1 && navigationStack[0] == Root
    }

    constructor ()
      ensures Valid()
      ensures navigationStack == InitialStack && !isDarkMode
    {
      navigationStack := InitialStack;
      isDarkMode := false;
    }

    /** `navigate(screen, params)` */
    method Navigate(screen: Screen, params: Option<Params>)
      requires Valid()
      modifies this
      ensures Valid()
      ensures navigationStack == Pushed(old(navigationStack), Frame(screen, params))
      ensures isDarkMode == old(isDarkMode)
    {
      navigationStack := navigationStack + [Frame(screen, params)];
    }

    /** `goBack()` */
    method GoBack()
      requires Valid()
      modifies this
      ensures Valid()
      ensures navigationStack == Popped(old(navigationStack))
      ensures isDarkMode == old(isDarkMode)
    {
      if |navigationStack| > 1 {
        navigationStack := navigationStack[..|navigationStack| - 1];
      }
    }

    /** Carries out a handler's effect on the stack. */
    method Perform(e: Effect)
      requires Valid()
      modifies this
      ensures Valid()
      ensures navigationStack == Apply(old(navigationStack), e)
      ensures isDarkMode == old(isDarkMode)
    {
      match e
      case Push(f) => Navigate(f.screen, f.params);
      case Pop => GoBack();
      case NoOp =>
    }

    /** `toggleDarkMode()` */
    method ToggleDarkMode()
      modifies this
      ensures isDarkMode == !old(isDarkMode)
      ensures navigationStack == old(navigationStack)
    {
      isDarkMode := !isDarkMode;
    }

    /** `currentScreen`: the top frame, defined because the stack is never empty. */
    function CurrentScreen(): (f: Frame)
      reads this
      requires Valid()
      ensures f in navigationStack
    {
      Current(navigationStack)
    }

    /** What `renderScreen()` shows for the current state. */
    function Rendered(): (v: View)
      reads this
      requires Valid()
      ensures ScreenOf(v) == CurrentScreen().screen
    {
      RenderScreen(CurrentScreen(), isDarkMode)
    }
  }

  /** Navigating and then going back leaves the application as it was. */
  method NavigateThenGoBack(app: App, screen: Screen, params: Option<Params>)
    requires app.Valid()
    modifies app
    ensures app.Valid()
    ensures app.navigationStack == old(app.navigationStack) && app.isDarkMode == old(app.isDarkMode)
  {
    app.Navigate(screen, params);
    app.GoBack();
  }

  /** Toggling dark mode twice restores the flag. */
  method ToggleDarkModeTwice(app: App)
    modifies app
    ensures app.isDarkMode == old(app.isDarkMode)
    ensures app.navigationStack == old(app.navigationStack)
  {
    app.ToggleDarkMode();
    app.ToggleDarkMode();
  }
}
