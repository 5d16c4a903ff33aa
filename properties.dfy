/**
 What the shell session guarantees over any sequence of events: the invariant,
 the growth of the re-injection handlers, the single creation of the view, and
 the fallback timers that cleanup never reaches.
 */
module SessionProperties {
  import opened SessionModel

  /** The session after handling `events` in order. */
  function Run(s: Session, events: seq<Event>): (r: Session)
    requires Inv(s)
    ensures Inv(r)
    ensures r.hasWindow == s.hasWindow
    decreases |events|
  {
    if events == [] then s else Run(Step(s, events[0]), events[1..])
  }

  /** How many 'navigate-to-url' messages `events` holds. */
  function Navigations(events: seq<Event>): nat {
    if events == [] then 0
    else (if events[0].NavigateRequest? then 1 else 0) + Navigations(events[1..])
  }

  /**
   Re-injection handlers are never removed: with a window, every navigation
   adds exactly three, and without one none is ever added.
   */
  lemma {:induction false} ReinjectListenersCount(s: Session, events: seq<Event>)
    requires Inv(s)
    ensures Run(s, events).reinjectListeners
            == s.reinjectListeners + (if s.hasWindow then 3 * Navigations(events) else 0)
    decreases |events|
  {
    if events != [] {
      ReinjectListenersCount(Step(s, events[0]), events[1..]);
    }
  }

  /**
   Once the view exists it is never released: later navigations reuse it, so
   its 'resize' handler stays the single one registered at creation.
   */
  lemma {:induction false} ViewCreatedOnce(s: Session, events: seq<Event>)
    requires Inv(s) && s.viewExists
    ensures Run(s, events).viewExists && Run(s, events).resizeListeners == s.resizeListeners == 1
    decreases |events|
  {
    if events != [] {
      ViewCreatedOnce(Step(s, events[0]), events[1..]);
    }
  }

  /** One handler call never clears a running timer other than the stored one. */
  lemma StepKeepsUnstoredTimer(s: Session, e: Event, id: nat)
    requires Inv(s) && id in s.liveIntervals && s.storedInterval != Some(id)
    ensures id in Step(s, e).liveIntervals && Step(s, e).storedInterval != Some(id)
  {
    if e.PageEvent? && |s.loads| > 0 {
      assert Step(s, e).storedInterval == Some(s.lastTimerId + |s.loads|);
    }
  }

  /**
   A timer that is running but no longer stored (an injection overwrote its id)
   keeps running whatever happens next: cleanup only ever clears the stored id.
   */
  lemma {:induction false} UnstoredTimerStaysLive(s: Session, events: seq<Event>, id: nat)
    requires Inv(s) && id in s.liveIntervals && s.storedInterval != Some(id)
    ensures id in Run(s, events).liveIntervals
    decreases |events|
  {
    if events != [] {
      StepKeepsUnstoredTimer(s, events[0], id);
      UnstoredTimerStaysLive(Step(s, events[0]), events[1..], id);
    }
  }

  /** A second return (or backward step into the launchpad) changes nothing. */
  lemma ReturnIdempotent(s: Session)
    ensures Returned(Returned(s)) == Returned(s)
  {
  }

  /**
   Returning after a navigation leaves the launchpad shown with the view kept,
   and navigating again reattaches that same view without a new resize handler.
   */
  lemma ReturnThenNavigate(s: Session, url: string, url': string, w: nat, h: nat, w': nat, h': nat)
    requires Inv(s) && s.hasWindow
    ensures !Hosting(Returned(Navigated(s, url, w, h)))
    ensures var again := Navigated(Returned(Navigated(s, url, w, h)), url', w', h');
            Hosting(again) && again.resizeListeners == 1
            && again.viewBounds == Navigated(s, url, w, h).viewBounds
  {
  }

  /**
   Load one page, let it fire two page events, then press the back button: the
   first fallback timer survives the cleanup, which only clears the second.
   */
  lemma EarlierTimerSurvivesReturn()
    ensures var r := Run(Initial(true), [NavigateRequest("https://example.com", 1000, 800),
                                         PageEvent(DidFinishLoad), PageEvent(DidNavigateInPage),
                                         ReturnRequest]);
            !Hosting(r) && r.storedInterval == None && r.liveIntervals == {1}
  {
    var navigate, load, inPage := NavigateRequest("https://example.com", 1000, 800),
                                  PageEvent(DidFinishLoad), PageEvent(DidNavigateInPage);
    var s0 := Initial(true);
    var s1 := Step(s0, navigate);
    assert |s1.loads| == 1;
    var s2 := Step(s1, load);
    assert s2.liveIntervals == {1} && s2.storedInterval == Some(1) by {
      assert FreshIds(0, 1) == {1};
    }
    var s3 := Step(s2, inPage);
    assert s3.liveIntervals == {1, 2} && s3.storedInterval == Some(2) by {
      assert FreshIds(1, 1) == {2};
    }
    var s4 := Step(s3, ReturnRequest);
    assert !Hosting(s4) && s4.storedInterval == None && s4.liveIntervals == {1};
    assert Run(s3, [ReturnRequest]) == s4;
    assert Run(s2, [inPage, ReturnRequest]) == s4 by { assert [inPage, ReturnRequest][1..] == [ReturnRequest]; }
    assert Run(s1, [load, inPage, ReturnRequest]) == s4 by {
      assert [load, inPage, ReturnRequest][1..] == [inPage, ReturnRequest];
    }
    assert [navigate, load, inPage, ReturnRequest][1..] == [load, inPage, ReturnRequest];
  }

  /**
   Two navigations register two handlers per page event, so the next load
   starts two fallback timers and only the second one's id is stored.
   */
  lemma SecondNavigationDoublesInjection()
    ensures var r := Run(Initial(true), [NavigateRequest("a", 1000, 800), NavigateRequest("b", 1000, 800),
                                         PageEvent(DidFinishLoad)]);
            r.liveIntervals == {1, 2} && r.storedInterval == Some(2) && r.reinjectListeners == 6
  {
    var first, second, load := NavigateRequest("a", 1000, 800), NavigateRequest("b", 1000, 800),
                               PageEvent(DidFinishLoad);
    var s1 := Step(Initial(true), first);
    var s2 := Step(s1, second);
    assert |s2.loads| == 2 && s2.reinjectListeners == 6;
    var s3 := Step(s2, load);
    assert s3.liveIntervals == {1, 2} && s3.storedInterval == Some(2) by {
      assert FreshIds(0, 2) == {1, 2};
    }
    assert Run(s2, [load]) == s3;
    assert Run(s1, [second, load]) == s3 by { assert [second, load][1..] == [load]; }
    assert [first, second, load][1..] == [second, load];
  }
}
