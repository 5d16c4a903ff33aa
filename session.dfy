/**
 The shell session of the desktop launchpad, as values.

 The main process keeps three module-level globals (the main window, the hosted
 BrowserView and the flag `isWebViewActive`) and updates them from five event
 handlers. This module describes one snapshot of that state as a `Session` value
 and each handler as a function from the state before to the state after. The
 host calls are abstracted: window bounds and `canGoBack()` are inputs,
 `setBrowserView`/`removeBrowserView` become the `attached` flag, listener
 registrations become counters, and the timer that the injected script stores in
 `window._electronBackButtonInterval` becomes an optional id plus the set of timers
 still running.
 */
module SessionModel {

  datatype Option<T> = None | Some(value: T)

  /** The rectangle handed to `BrowserView.setBounds`. */
  datatype Rect = Rect(x: int, y: int, width: nat, height: nat)

  /** The three `webContents` events on which the back button is re-injected. */
  datatype PageEventKind = DidFinishLoad | DidNavigate | DidNavigateInPage

  datatype Session = Session(
    hasWindow: bool,              // mainWindow != null
    viewExists: bool,             // webView != null
    attached: bool,               // webView is the window's BrowserView
    active: bool,                 // isWebViewActive
    viewBounds: Rect,             // last bounds given to webView.setBounds
    reinjectListeners: nat,       // re-injection handlers registered on webView.webContents
    resizeListeners: nat,         // 'resize' handlers registered on mainWindow
    loads: seq<string>,           // URLs passed to webView.webContents.loadURL, in order
    backNavigations: nat,         // calls of webView.webContents.goBack()
    storedInterval: Option<nat>,  // window._electronBackButtonInterval in the hosted page
    liveIntervals: set<nat>,      // fallback timers started by injections and not cleared
    lastTimerId: nat              // largest timer id handed out so far
  )

  /** The command name and swipe direction the backward handlers react to. */
  const BrowserBackward: string := "browser-backward"
  const SwipeLeft: string := "left"

  /** The JavaScript truth test on a timer id: null is falsy, and so is the id 0. */
  predicate Truthy(id: Option<nat>) {
    id.Some? && id.value != 0
  }

  /** State when the module is loaded: no view, inactive, with or without the main window. */
  function Initial(windowCreated: bool): (s: Session)
    ensures Inv(s) && !s.active && !s.viewExists && s.hasWindow == windowCreated
  {
    Session(windowCreated, false, false, false, Rect(0, 0, 0, 0), 0, 0, [], 0, None, {}, 0)
  }

  /**
   The invariant every handler keeps: the active flag is true exactly when the
   view is attached; the view exists only once the window does, and exactly when
   a navigation has been handled; each handled navigation registered three
   re-injection handlers and the first one registered the single resize handler;
   the stored timer id, if any, is one of the running timers, and every running
   timer id is positive and already handed out.
   */
  ghost predicate Inv(s: Session) {
    && (s.active <==> s.attached)
    && (s.attached ==> s.viewExists)
    && (s.viewExists ==> s.hasWindow)
    && s.reinjectListeners == 3 * |s.loads|
    && (s.viewExists <==> |s.loads| > 0)
    && s.resizeListeners == (if s.viewExists then 1 else 0)
    && (s.storedInterval.Some? ==> s.storedInterval.value in s.liveIntervals)
    && (forall id :: id in s.liveIntervals ==> 1 <= id <= s.lastTimerId)
    && (!s.viewExists ==> s.liveIntervals == {} && s.storedInterval == None)
  }

  /** Shell Controller states: Hosting while the view is shown, Idle otherwise. */
  predicate Hosting(s: Session) {
    s.active
  }

  // ---------------------------------------------------------------------------
  // 'navigate-to-url'
  // ---------------------------------------------------------------------------

  /**
   The 'navigate-to-url' handler: without a window nothing happens; otherwise the
   view is created on first use (bounds set to the window's, resize handler
   registered), attached, marked active, told to load `url`, and three more
   re-injection handlers are registered on it.
   */
  function Navigated(s: Session, url: string, windowWidth: nat, windowHeight: nat): (r: Session)
    ensures !s.hasWindow ==> r == s
    ensures s.hasWindow ==> r.viewExists && r.attached && r.active && r.loads == s.loads + [url]
    ensures s.hasWindow ==> r.reinjectListeners == s.reinjectListeners + 3
    ensures s.viewExists ==> r.viewBounds == s.viewBounds && r.resizeListeners == s.resizeListeners
    ensures s.hasWindow && !s.viewExists ==>
              r.viewBounds == Rect(0, 0, windowWidth, windowHeight) && r.resizeListeners == s.resizeListeners + 1
    ensures r.hasWindow == s.hasWindow && r.backNavigations == s.backNavigations
    ensures r.storedInterval == s.storedInterval && r.liveIntervals == s.liveIntervals
    ensures r.lastTimerId == s.lastTimerId
  {
    if !s.hasWindow then s
    else
      var withView :=
        if s.viewExists then s
        else s.(viewExists := true,
                viewBounds := Rect(0, 0, windowWidth, windowHeight),
                resizeListeners := s.resizeListeners + 1);
      withView.(attached := true, active := true,
                loads := s.loads + [url],
                reinjectListeners := s.reinjectListeners + 3)
  }

  // ---------------------------------------------------------------------------
  // injectBackButton: the interval bookkeeping of the injected script
  // ---------------------------------------------------------------------------

  /**
   One injection starts a new fallback timer, with an id above every id handed
   out before, and overwrites the stored id with it; the timer stored before is
   not cleared.
   */
  function InjectedOnce(s: Session): (r: Session)
    ensures r.lastTimerId == s.lastTimerId + 1 && r.storedInterval == Some(r.lastTimerId)
    ensures r.liveIntervals == s.liveIntervals + {r.lastTimerId}
    ensures r == s.(storedInterval := r.storedInterval, liveIntervals := r.liveIntervals, lastTimerId := r.lastTimerId)
  {
    var id := s.lastTimerId + 1;
    s.(lastTimerId := id, liveIntervals := s.liveIntervals + {id}, storedInterval := Some(id))
  }

  /** The timer ids handed out by `count` injections after `last`. */
  ghost function FreshIds(last: nat, count: nat): set<nat> {
    if count == 0 then {} else FreshIds(last, count - 1) + {last + count}
  }

  /** Those are exactly the ids above `last`, up to `last + count`. */
  lemma {:induction false} FreshIdsRange(last: nat, count: nat, id: nat)
    ensures id in FreshIds(last, count) <==> last < id <= last + count
  {
    if count > 0 {
      FreshIdsRange(last, count - 1, id);
    }
  }

  /**
   `count` injections in a row: every one starts a timer of its own, none of the
   earlier timers is cleared, and the stored id is the last one started.
   */
  function Injected(s: Session, count: nat): (r: Session)
    ensures r.lastTimerId == s.lastTimerId + count
    ensures r.liveIntervals == s.liveIntervals + FreshIds(s.lastTimerId, count)
    ensures count > 0 ==> r.storedInterval == Some(s.lastTimerId + count)
    ensures count == 0 ==> r.storedInterval == s.storedInterval
    ensures r == s.(storedInterval := r.storedInterval, liveIntervals := r.liveIntervals, lastTimerId := r.lastTimerId)
  {
    if count == 0 then s
    else
      InjectedOnce(Injected(s, count - 1))
  }

  /**
   Injections into an existing view keep the invariant: the new ids are
   positive and handed out.
   */
  lemma InjectedKeepsInv(s: Session, count: nat)
    requires Inv(s) && (s.viewExists || count == 0)
    ensures Inv(Injected(s, count))
  {
    var r := Injected(s, count);
    forall id | id in r.liveIntervals
      ensures 1 <= id <= r.lastTimerId
    {
      FreshIdsRange(s.lastTimerId, count, id);
    }
  }

  /**
   A 'did-finish-load', 'did-navigate' or 'did-navigate-in-page' event of the
   hosted view: every handler registered for that event injects once. Each
   handled navigation registered one handler per event kind, so an event runs a
   third as many injections as there are re-injection handlers in all.
   */
  function PageEventHandled(s: Session, kind: PageEventKind): (r: Session)
    requires Inv(s)
    ensures r == Injected(s, |s.loads|)
  {
    Injected(s, s.reinjectListeners / 3)
  }

  // ---------------------------------------------------------------------------
  // Cleanup and detaching
  // ---------------------------------------------------------------------------

  /** The cleanup snippet: clear the stored timer, if the id is truthy, and null the id. */
  function IntervalCleared(s: Session): (r: Session)
    ensures Truthy(s.storedInterval) ==>
              r.storedInterval == None && r.liveIntervals == s.liveIntervals - {s.storedInterval.value}
    ensures !Truthy(s.storedInterval) ==> r == s
    ensures r == s.(storedInterval := r.storedInterval, liveIntervals := r.liveIntervals)
  {
    if Truthy(s.storedInterval) then
      s.(liveIntervals := s.liveIntervals - {s.storedInterval.value}, storedInterval := None)
    else
      s
  }

  /** Cleanup followed by `removeBrowserView` and clearing the active flag. */
  function Detached(s: Session): (r: Session)
    ensures !r.attached && !r.active
    ensures r.(attached := s.attached, active := s.active) == IntervalCleared(s)
  {
    IntervalCleared(s).(attached := false, active := false)
  }

  /**
   The 'go-back-to-launchpad' handler: with both a window and a view it detaches
   the view (running the cleanup); otherwise nothing changes. The view itself is
   kept for the next navigation.
   */
  function Returned(s: Session): (r: Session)
    ensures s.hasWindow && s.viewExists ==> r == Detached(s) && !Hosting(r) && r.viewExists
    ensures !(s.hasWindow && s.viewExists) ==> r == s
  {
    if s.hasWindow && s.viewExists then Detached(s) else s
  }

  // ---------------------------------------------------------------------------
  // 'app-command' and 'swipe'
  // ---------------------------------------------------------------------------

  /**
   The 'app-command' handler. Only 'browser-backward' while active does
   anything: if the hosted history can go back it goes back and stays shown,
   otherwise the view is detached as by the return handler.
   */
  function Commanded(s: Session, command: string, canGoBack: bool): (r: Session)
    ensures command != BrowserBackward || !s.active ==> r == s
    ensures command == BrowserBackward && s.active && canGoBack ==>
              r == s.(backNavigations := s.backNavigations + 1)
    ensures command == BrowserBackward && s.active && !canGoBack ==>
              r == Detached(s) && !Hosting(r)
  {
    if command == BrowserBackward && s.active then
      if canGoBack then s.(backNavigations := s.backNavigations + 1)
      else IntervalCleared(s).(attached := false, active := false)
    else
      s
  }

  /**
   The 'swipe' handler, written out separately as the source does: a left
   swipe has exactly the effect of the 'browser-backward' command, and every
   other direction leaves the session as it was.
   */
  function Swiped(s: Session, direction: string, canGoBack: bool): (r: Session)
    ensures direction == SwipeLeft ==> r == Commanded(s, BrowserBackward, canGoBack)
    ensures direction != SwipeLeft ==> r == s
  {
    if direction == SwipeLeft && s.active then
      if canGoBack then s.(backNavigations := s.backNavigations + 1)
      else IntervalCleared(s).(attached := false, active := false)
    else
      s
  }

  // ---------------------------------------------------------------------------
  // The window's 'resize' listener
  // ---------------------------------------------------------------------------

  /**
   A window resize runs the registered 'resize' handler, if any: while active
   it copies the new window size onto the view at the origin; while inactive the
   view keeps its bounds.
   */
  function Resized(s: Session, windowWidth: nat, windowHeight: nat): (r: Session)
    requires Inv(s)
    ensures s.active ==> r == s.(viewBounds := Rect(0, 0, windowWidth, windowHeight))
    ensures !s.active ==> r == s
  {
    if s.resizeListeners > 0 && s.active then s.(viewBounds := Rect(0, 0, windowWidth, windowHeight))
    else s
  }

  // ---------------------------------------------------------------------------
  // Event traces
  // ---------------------------------------------------------------------------

  datatype Event =
    | NavigateRequest(url: string, windowWidth: nat, windowHeight: nat)
    | ReturnRequest
    | AppCommandEvent(command: string, canGoBack: bool)
    | SwipeEvent(direction: string, canGoBack: bool)
    | WindowResize(windowWidth: nat, windowHeight: nat)
    | PageEvent(kind: PageEventKind)

  /** One event dispatched to its handler. */
  function Step(s: Session, e: Event): (r: Session)
    requires Inv(s)
    ensures Inv(r)
    ensures r.hasWindow == s.hasWindow
    ensures s.viewExists ==> r.viewExists
    ensures |s.loads| <= |r.loads|
  {
    match e
    case NavigateRequest(url, w, h) => Navigated(s, url, w, h)
    case ReturnRequest => Returned(s)
    case AppCommandEvent(command, canGoBack) => Commanded(s, command, canGoBack)
    case SwipeEvent(direction, canGoBack) => Swiped(s, direction, canGoBack)
    case WindowResize(w, h) => Resized(s, w, h)
    case PageEvent(kind) =>
      InjectedKeepsInv(s, |s.loads|);
      PageEventHandled(s, kind)
  }
}
