/**
 The main process's session controller as an object: its fields are the
 module-level globals of the main process and what the host calls change, and
 each event handler is a method that updates them in place. Every method is
 proved to move the object from `old(State())` to the state the matching
 function of SessionModel gives, and to keep the session invariant.
 */
module ShellController {
  import opened SessionModel

  class ShellSession {
    var hasWindow: bool
    var viewExists: bool
    var attached: bool
    var active: bool
    var viewBounds: Rect
    var reinjectListeners: nat
    var resizeListeners: nat
    var loads: seq<string>
    var backNavigations: nat
    var storedInterval: Option<nat>
    var liveIntervals: set<nat>
    var lastTimerId: nat

    /** The fields as a Session value. */
    function State(): Session
      reads this
    {
      Session(hasWindow, viewExists, attached, active, viewBounds, reinjectListeners,
              resizeListeners, loads, backNavigations, storedInterval, liveIntervals, lastTimerId)
    }

    ghost predicate Valid()
      reads this
    {
      Inv(State())
    }

    /** The globals when the module is loaded, after `createWindow` has run or not. */
    constructor (windowCreated: bool)
      ensures Valid() && State() == Initial(windowCreated)
    {
      hasWindow := windowCreated;
      viewExists, attached, active := false, false, false;
      viewBounds := Rect(0, 0, 0, 0);
      reinjectListeners, resizeListeners := 0, 0;
      loads, backNavigations := [], 0;
      storedInterval, liveIntervals, lastTimerId := None, {}, 0;
    }

    /** The 'navigate-to-url' handler; the window's size is what `getBounds()` returns. */
    method NavigateToUrl(url: string, windowWidth: nat, windowHeight: nat)
      requires Valid()
      modifies this
      ensures Valid() && State() == Navigated(old(State()), url, windowWidth, windowHeight)
      ensures old(hasWindow) ==> attached && active
    {
      if !hasWindow {
        return;
      }
      if !viewExists {
        viewExists := true;
        viewBounds := Rect(0, 0, windowWidth, windowHeight);
        resizeListeners := resizeListeners + 1;
      }
      attached := true;
      active := true;
      loads := loads + [url];
      reinjectListeners := reinjectListeners + 3;
    }

    /** The timer bookkeeping of one run of the injected script. */
    method InjectBackButton()
      requires Valid() && viewExists
      modifies this
      ensures Valid() && State() == InjectedOnce(old(State()))
      ensures old(liveIntervals) < liveIntervals
    {
      lastTimerId := lastTimerId + 1;
      liveIntervals := liveIntervals + {lastTimerId};
      storedInterval := Some(lastTimerId);
    }

    /**
     A 'did-finish-load', 'did-navigate' or 'did-navigate-in-page' event: the
     host calls every re-injection handler registered for it, one per handled
     navigation.
     */
    method OnPageEvent(kind: PageEventKind)
      requires Valid()
      modifies this
      ensures Valid() && State() == PageEventHandled(old(State()), kind)
    {
      var handlers := reinjectListeners / 3;
      var i := 0;
      while i < handlers
        invariant 0 <= i <= handlers == |old(loads)|
        invariant State() == Injected(old(State()), i)
        invariant Valid()
      {
        InjectBackButton();
        i := i + 1;
        InjectedKeepsInv(old(State()), i);
      }
    }

    /** The cleanup snippet run in the hosted page before the view is removed. */
    method ClearBackButtonInterval()
      requires Valid()
      modifies this
      ensures Valid() && State() == IntervalCleared(old(State()))
    {
      if storedInterval.Some? && storedInterval.value != 0 {
        liveIntervals := liveIntervals - {storedInterval.value};
        storedInterval := None;
      }
    }

    /** The 'go-back-to-launchpad' handler. */
    method GoBackToLaunchpad()
      requires Valid()
      modifies this
      ensures Valid() && State() == Returned(old(State()))
      ensures !active && !attached
    {
      if hasWindow && viewExists {
        ClearBackButtonInterval();
        attached := false;
        active := false;
      }
    }

    /** The 'app-command' handler; `canGoBack` is what the hosted history answers. */
    method AppCommand(command: string, canGoBack: bool)
      requires Valid()
      modifies this
      ensures Valid() && State() == Commanded(old(State()), command, canGoBack)
    {
      if command == BrowserBackward && active {
        if canGoBack {
          backNavigations := backNavigations + 1;
        } else {
          ClearBackButtonInterval();
          attached := false;
          active := false;
        }
      }
    }

    /** The 'swipe' handler; `canGoBack` is what the hosted history answers. */
    method Swipe(direction: string, canGoBack: bool)
      requires Valid()
      modifies this
      ensures Valid() && State() == Swiped(old(State()), direction, canGoBack)
    {
      if direction == SwipeLeft && active {
        if canGoBack {
          backNavigations := backNavigations + 1;
        } else {
          ClearBackButtonInterval();
          attached := false;
          active := false;
        }
      }
    }

    /** The window's 'resize' event, reaching the handler registered when the view was created. */
    method OnResize(windowWidth: nat, windowHeight: nat)
      requires Valid()
      modifies this
      ensures Valid() && State() == Resized(old(State()), windowWidth, windowHeight)
    {
      if resizeListeners > 0 && active {
        viewBounds := Rect(0, 0, windowWidth, windowHeight);
      }
    }
  }
}
