/** The app shell: two flags held in memory choose between the splash
    display, the onboarding carousel and the main tab navigator. A one-shot
    initialisation timer clears the loading flag, and the carousel's
    completion callback sets the onboarding flag; neither is ever undone. */
module AppShell {
  /** The three top-level screens the shell can render. */
  datatype Screen = SplashScreen | OnboardingScreen | AppNavigator

  datatype Flags = Flags(isLoading: bool, hasSeenOnboarding: bool)

  /** The two things that ever change the flags: the initialisation
      timer's callback, and the completion handler the shell hands to the
      carousel as `onComplete` (fired by "Next" on the last slide or by
      "Skip"). */
  datatype Event = InitTimerFired | OnboardingCompleted

  const Initial := Flags(true, false)

  /** The render selection: loading takes priority, then onboarding. */
  function Select(f: Flags): (r: Screen)
    ensures r == SplashScreen <==> f.isLoading
    ensures r == OnboardingScreen <==> !f.isLoading && !f.hasSeenOnboarding
    ensures r == AppNavigator <==> !f.isLoading && f.hasSeenOnboarding
  {
    if f.isLoading then SplashScreen
    else if !f.hasSeenOnboarding then OnboardingScreen
    else AppNavigator
  }

  function Apply(f: Flags, e: Event): Flags
  {
    match e
    case InitTimerFired => f.(isLoading := false)
    case OnboardingCompleted => f.(hasSeenOnboarding := true)
  }

  /** The flags after a sequence of events, in order. */
  function Run(f: Flags, es: seq<Event>): Flags
    decreases |es|
  {
    if es == [] then f else Run(Apply(f, es[0]), es[1..])
  }

  /** How far along the shell is: splash, then onboarding, then main. */
  function Stage(s: Screen): nat
  {
    match s
    case SplashScreen => 0
    case OnboardingScreen => 1
    case AppNavigator => 2
  }

  /** Each event is idempotent, the two commute, and neither undoes a flag
      or moves the shell back to an earlier screen. */
  lemma ApplyProperties(f: Flags, e: Event, d: Event)
    ensures Apply(Apply(f, e), e) == Apply(f, e)
    ensures Apply(Apply(f, e), d) == Apply(Apply(f, d), e)
    ensures !f.isLoading ==> !Apply(f, e).isLoading
    ensures f.hasSeenOnboarding ==> Apply(f, e).hasSeenOnboarding
    ensures Stage(Select(f)) <= Stage(Select(Apply(f, e)))
  {
  }

  /** Running events one after another is running their concatenation. */
  lemma {:induction false} RunAppend(f: Flags, a: seq<Event>, b: seq<Event>)
    ensures Run(f, a + b) == Run(Run(f, a), b)
    decreases |a|
  {
    if a != [] {
      assert (a + b)[0] == a[0];
      assert (a + b)[1..] == a[1..] + b;
      RunAppend(Apply(f, a[0]), a[1..], b);
    } else {
      assert a + b == b;
    }
  }

  /** Over any sequence of events the flags only move one way, the shell
      never returns to an earlier screen, and each event that occurs leaves
      its flag set for good. */
  lemma {:induction false} RunMonotone(f: Flags, es: seq<Event>)
    ensures !f.isLoading ==> !Run(f, es).isLoading
    ensures f.hasSeenOnboarding ==> Run(f, es).hasSeenOnboarding
    ensures InitTimerFired in es ==> !Run(f, es).isLoading
    ensures OnboardingCompleted in es ==> Run(f, es).hasSeenOnboarding
    ensures Stage(Select(f)) <= Stage(Select(Run(f, es)))
    decreases |es|
  {
    if es != [] {
      ApplyProperties(f, es[0], es[0]);
      RunMonotone(Apply(f, es[0]), es[1..]);
      assert es == [es[0]] + es[1..];
    }
  }

  /** From launch: the splash shows until the timer fires, whatever else
      happens; once both the timer and the onboarding completion have
      happened, every later render shows the main navigator. */
  lemma {:induction false} MainForever(es: seq<Event>, i: nat, j: nat)
    requires i <= j <= |es|
    ensures InitTimerFired !in es[..j] ==> Select(Run(Initial, es[..j])) == SplashScreen
    ensures InitTimerFired in es[..i] && OnboardingCompleted in es[..i] ==>
      Select(Run(Initial, es[..j])) == AppNavigator
  {
    if InitTimerFired !in es[..j] {
      SplashUntilTimer(Initial, es[..j]);
    }
    if InitTimerFired in es[..i] && OnboardingCompleted in es[..i] {
      RunMonotone(Initial, es[..i]);
      assert es[..j] == es[..i] + es[i..j];
      RunAppend(Initial, es[..i], es[i..j]);
      RunMonotone(Run(Initial, es[..i]), es[i..j]);
    }
  }

  /** Without the timer event the loading flag stays as it was. */
  lemma {:induction false} SplashUntilTimer(f: Flags, es: seq<Event>)
    requires InitTimerFired !in es
    ensures Run(f, es).isLoading == f.isLoading
    decreases |es|
  {
    if es != [] {
      assert es[0] in es;
      assert forall e :: e in es[1..] ==> e in es;
      SplashUntilTimer(Apply(f, es[0]), es[1..]);
    }
  }

  /** The root component's state. */
  class App {
    var isLoading: bool
    var hasSeenOnboarding: bool

    ghost function State(): Flags
      reads this
    {
      Flags(isLoading, hasSeenOnboarding)
    }

    constructor ()
      ensures State() == Initial
      ensures Select(State()) == SplashScreen
    {
      isLoading := true;
      hasSeenOnboarding := false;
    }

    /** The initialisation timer's callback. */
    method InitTimerFired()
      modifies this
      ensures State() == Apply(old(State()), Event.InitTimerFired)
      ensures !isLoading && hasSeenOnboarding == old(hasSeenOnboarding)
    {
      isLoading := false;
    }

    /** handleOnboardingComplete. */
    method HandleOnboardingComplete()
      modifies this
      ensures State() == Apply(old(State()), OnboardingCompleted)
      ensures hasSeenOnboarding && isLoading == old(isLoading)
    {
      hasSeenOnboarding := true;
    }
  }
}
