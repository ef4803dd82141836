/**
 * The top-level scene router of the portfolio (src/App.tsx).
 *
 * The application shows exactly one of eight scenes. It starts on the
 * loading ("sync") scene with a syncing flag raised; a one-shot start-up
 * timer lowers the flag, after which the sync scene's enter button leads to
 * the hub. Choosing a card on the hub opens a content scene, and every
 * content scene's back button returns to the hub. The router remembers the
 * last content scene chosen so that the hub re-opens centred on it.
 */
module App {

  datatype Scene = Sync | Hub | Profile | Skills | Projects | Codex | Contact | Gallery

  /** A content scene is one of the six scenes reachable from the hub. */
  predicate IsContent(s: Scene) {
    s != Sync && s != Hub
  }

  /** The router's three state variables, as a value. */
  datatype Router = Router(currentScene: Scene, isSyncing: bool, lastSelectedMission: Scene)

  /** The remembered mission is always a content scene. */
  predicate Valid(r: Router) {
    IsContent(r.lastSelectedMission)
  }

  /** The state when the application mounts. */
  function Initial(): (r: Router)
    ensures Valid(r)
    ensures r.currentScene == Sync && r.isSyncing && r.lastSelectedMission == Profile
  {
    Router(Sync, true, Profile)
  }

  /**
   * navigateToScene: remember the target when it is a content scene, then
   * show it. The syncing flag is never touched.
   */
  function Navigate(r: Router, s: Scene): (r': Router)
    ensures r'.currentScene == s
    ensures r'.isSyncing == r.isSyncing
    ensures IsContent(s) ==> r'.lastSelectedMission == s
    ensures !IsContent(s) ==> r'.lastSelectedMission == r.lastSelectedMission
  {
    var last := if s != Sync && s != Hub then s else r.lastSelectedMission;
    Router(s, r.isSyncing, last)
  }

  /** Everything that can happen to the router. */
  datatype Event =
    | NavigateTo(scene: Scene)  // a call of navigateToScene, e.g. from a hub card
    | SyncTimerFired            // the 3 s start-up timer
    | EnterPressed              // the sync scene's enter button
    | BackPressed               // a content scene's back button

  /** The enter button exists only on the sync scene once syncing is over. */
  predicate EnterAvailable(r: Router) {
    r.currentScene == Sync && !r.isSyncing
  }

  /** A back button exists only on a content scene. */
  predicate BackAvailable(r: Router) {
    IsContent(r.currentScene)
  }

  /**
   * The effect of one event. A press of a button that is not rendered
   * changes nothing.
   */
  function Step(r: Router, e: Event): (r': Router)
    ensures e.SyncTimerFired? ==> r' == r.(isSyncing := false)
    ensures e.EnterPressed? ==> r' == if EnterAvailable(r) then r.(currentScene := Hub) else r
    ensures e.BackPressed? ==> r' == if BackAvailable(r) then r.(currentScene := Hub) else r
    ensures e.NavigateTo? ==> r' == Navigate(r, e.scene)
  {
    match e
    case NavigateTo(s) => Navigate(r, s)
    case SyncTimerFired => r.(isSyncing := false)
    case EnterPressed => if EnterAvailable(r) then Navigate(r, Hub) else r
    case BackPressed => if BackAvailable(r) then Navigate(r, Hub) else r
  }

  /** The state after a sequence of events, applied in order. */
  function Run(r: Router, events: seq<Event>): Router
    decreases |events|
  {
    if events == [] then r else Run(Step(r, events[0]), events[1..])
  }

  /** The state reached from start-up by a sequence of events. */
  function Reached(events: seq<Event>): Router {
    Run(Initial(), events)
  }

  lemma NavigateKeepsValid(r: Router, s: Scene)
    requires Valid(r)
    ensures Valid(Navigate(r, s))
  {
  }

  /** Navigating to the same scene twice is the same as navigating once. */
  lemma NavigateIdempotent(r: Router, s: Scene)
    ensures Navigate(Navigate(r, s), s) == Navigate(r, s)
  {
  }

  /** The router invariant holds after any sequence of events. */
  lemma {:induction false} RunKeepsValid(r: Router, events: seq<Event>)
    requires Valid(r)
    ensures Valid(Run(r, events))
    decreases |events|
  {
    if events != [] {
      var r1 := Step(r, events[0]);
      assert Valid(r1);
      RunKeepsValid(r1, events[1..]);
    }
  }

  /** In every reachable state the remembered mission is a content scene. */
  lemma ReachedIsValid(events: seq<Event>)
    ensures Valid(Reached(events))
  {
    RunKeepsValid(Initial(), events);
  }

  /**
   * The syncing flag goes only from true to false, and only through the
   * start-up timer: it is still raised after a sequence of events exactly
   * when it was raised before and the timer did not fire.
   */
  lemma {:induction false} SyncingClearedOnlyByTimer(r: Router, events: seq<Event>)
    ensures Run(r, events).isSyncing <==> r.isSyncing && SyncTimerFired !in events
    decreases |events|
  {
    if events != [] {
      SyncingClearedOnlyByTimer(Step(r, events[0]), events[1..]);
      assert events == [events[0]] + events[1..];
    }
  }

  /** From start-up, syncing is over exactly when the timer has fired. */
  lemma ReachedSyncing(events: seq<Event>)
    ensures Reached(events).isSyncing <==> SyncTimerFired !in events
  {
    SyncingClearedOnlyByTimer(Initial(), events);
  }

  /** Both the enter button and every back button lead to the hub. */
  lemma ButtonsLeadToHub(r: Router)
    ensures EnterAvailable(r) ==> Step(r, EnterPressed).currentScene == Hub
    ensures BackAvailable(r) ==> Step(r, BackPressed).currentScene == Hub
    ensures !EnterAvailable(r) ==> Step(r, EnterPressed) == r
  {
  }

  /** The router as the stateful component App keeps. */
  class SceneRouter {
    var currentScene: Scene
    var isSyncing: bool
    var lastSelectedMission: Scene

    function State(): Router
      reads this
    {
      Router(currentScene, isSyncing, lastSelectedMission)
    }

    ghost predicate Valid()
      reads this
    {
      IsContent(lastSelectedMission)
    }

    constructor ()
      ensures Valid()
      ensures State() == Initial()
      ensures currentScene == Sync && isSyncing && lastSelectedMission == Profile
    {
      currentScene := Sync;
      isSyncing := true;
      lastSelectedMission := Profile;
    }

    /** navigateToScene. */
    method NavigateToScene(scene: Scene)
      requires Valid()
      modifies this
      ensures Valid()
      ensures State() == Navigate(old(State()), scene)
      ensures currentScene == scene && isSyncing == old(isSyncing)
      ensures lastSelectedMission == if IsContent(scene) then scene else old(lastSelectedMission)
    {
      if scene != Sync && scene != Hub {
        lastSelectedMission := scene;
      }
      currentScene := scene;
    }

    /** The start-up timer's callback. */
    method SyncTimerFires()
      requires Valid()
      modifies this
      ensures Valid()
      ensures State() == Step(old(State()), SyncTimerFired)
      ensures !isSyncing
      ensures currentScene == old(currentScene) && lastSelectedMission == old(lastSelectedMission)
    {
      isSyncing := false;
    }

    /** The sync scene's enter button; `pressed` is false when it is not rendered. */
    method PressEnter() returns (pressed: bool)
      requires Valid()
      modifies this
      ensures Valid()
      ensures pressed == EnterAvailable(old(State()))
      ensures State() == Step(old(State()), EnterPressed)
      ensures pressed ==> currentScene == Hub
    {
      pressed := currentScene == Sync && !isSyncing;
      if pressed {
        NavigateToScene(Hub);
      }
    }

    /** A content scene's back button; `pressed` is false when it is not rendered. */
    method PressBack() returns (pressed: bool)
      requires Valid()
      modifies this
      ensures Valid()
      ensures pressed == BackAvailable(old(State()))
      ensures State() == Step(old(State()), BackPressed)
      ensures pressed ==> currentScene == Hub
    {
      pressed := currentScene != Sync && currentScene != Hub;
      if pressed {
        NavigateToScene(Hub);
      }
    }

    /** The mission the hub is mounted with. */
    function HubInitialMission(): (m: Scene)
      reads this
      requires Valid()
      ensures m == lastSelectedMission
      ensures IsContent(m)
    {
      lastSelectedMission
    }
  }
}
