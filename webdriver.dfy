/**
 * The element wait engine of webdriver.go: waitForElementXPath records the
 * URL, then polls through selenium's WaitWithTimeout with a condition that
 * first re-reads the URL and only then looks the element up. A moved page is
 * a ChangedURLError naming both URLs; a lookup that fails is "not yet".
 */
module WebDriver {
  import opened Errors
  import opened Browser

  /** Polls after the first within a 5 s wait: selenium's default interval is 100 ms. */
  const WaitTicks: nat := 50

  /** The error WaitWithTimeout returns once the time is up (a fmt.Errorf value). */
  const TimeoutError: Error := Errorf("timeout")

  /** The text of the ChangedURLError built at webdriver.go:32-33; it carries both URLs. */
  function ChangedURLText(from: Url, to: Url): (t: string)
    ensures |t| == 25 + |from| + |to|
    ensures t[18..18 + |from|] == from
    ensures t[24 + |from|..|t| - 1] == to
  {
    "URL changed from '" + from + "' to '" + to + "'"
  }

  function ChangedURLError(from: Url, to: Url): (e: Error)
    ensures Cause(e).ChangedURL?
  {
    Error(ChangedURL(ChangedURLText(from, to)), [])
  }

  /** A ChangedURLError prints as the text naming both URLs. */
  lemma ChangedURLMessage(from: Url, to: Url)
    ensures Message(ChangedURLError(from, to)) == ChangedURLText(from, to)
  {
  }

  /** The two polling closures of the core. */
  datatype Condition =
    | UrlStable(expected: Url, loc: Locator)   // waitForElementXPath's closure, webdriver.go:24-39
    | Present(loc: Locator)                    // SendMessage's closure, wireapp.go:260-266

  /** What one evaluation of a condition returns, and the element it leaves in the captured variable. */
  datatype Poll = Poll(done: bool, err: Option<Error>, element: Option<Element>, after: DriverState)

  /** What a wait returns, and the element last captured by its condition. */
  datatype Wait = Wait(err: Option<Error>, element: Option<Element>, after: DriverState)

  /** The error a condition reports at time t, read off the script alone. */
  function ConditionError(script: seq<Snapshot>, t: nat, c: Condition): (r: Option<Error>)
    ensures r.Some? ==> c.UrlStable? && LocationAt(script, t) != Ok(c.expected)
    ensures r.Some? && LocationAt(script, t).Ok? ==> r == Some(ChangedURLError(c.expected, LocationAt(script, t).value))
    ensures r.Some? && LocationAt(script, t).Err? ==> r == Some(LocationAt(script, t).error)
    ensures c.UrlStable? && LocationAt(script, t) != Ok(c.expected) ==> r.Some?
  {
    match c
    case UrlStable(expected, _) =>
      (match LocationAt(script, t)
       case Err(e) => Some(e)
       case Ok(url) => if url != expected then Some(ChangedURLError(expected, url)) else None)
    case Present(_) => None
  }

  /** At time t the condition neither fails nor finds its element: the wait goes on. */
  predicate Pending(script: seq<Snapshot>, t: nat, c: Condition)
  {
    ConditionError(script, t, c).None? && MatchesAt(script, t, c.loc) == []
  }

  function FoundElement(r: Result<Element>): Option<Element>
  {
    if r.Ok? then Some(r.value) else None
  }

  /**
   * One evaluation of a condition closure. The element the closure assigns to
   * the captured variable is threaded through as `element`.
   */
  function ConditionResult(s: DriverState, c: Condition, element: Option<Element>): (p: Poll)
    ensures p.err == ConditionError(s.script, s.now, c)
    ensures p.done <==> p.err.None? && MatchesAt(s.script, s.now, c.loc) != []
    ensures p.done ==> p.element == Some(MatchesAt(s.script, s.now, c.loc)[0])
    ensures p.err.None? && !p.done ==> p.element.None?
    ensures p.err.Some? ==> p.element == element && p.after.lookups == s.lookups + [Location]
    ensures p.after == s.(lookups := p.after.lookups) && s.lookups <= p.after.lookups
  {
    match c
    case UrlStable(expected, loc) =>
      var (url, s1) := s.CurrentURL();
      if url.Err? then Poll(false, Some(url.error), element, s1)
      else if url.value != expected then Poll(false, Some(ChangedURLError(expected, url.value)), element, s1)
      else
        var (found, s2) := s1.FindElement(loc);
        Poll(found.Ok?, None, FoundElement(found), s2)
    case Present(loc) =>
      var (found, s1) := s.FindElement(loc);
      Poll(found.Ok?, None, FoundElement(found), s1)
  }

  /**
   * selenium's WaitWithTimeout: evaluate the condition; stop on its error or
   * its success; otherwise give up after `ticks` sleeps, or sleep and poll again.
   */
  function WaitResult(s: DriverState, c: Condition, ticks: nat, element: Option<Element>): (w: Wait)
    ensures w.err.None? ==>
              MatchesAt(s.script, w.after.now, c.loc) != [] && w.element == Some(MatchesAt(s.script, w.after.now, c.loc)[0])
    ensures w.err.None? ==> ConditionError(s.script, w.after.now, c).None?
    ensures Follows(s, w.after) && w.after.actions == s.actions && w.after.now <= s.now + ticks
    decreases ticks
  {
    var p := ConditionResult(s, c, element);
    if p.err.Some? then Wait(p.err, p.element, p.after)
    else if p.done then Wait(None, p.element, p.after)
    else if ticks == 0 then Wait(Some(TimeoutError), p.element, p.after)
    else WaitResult(p.after.Sleep(), c, ticks - 1, p.element)
  }

  /** waitForElementXPath: read the URL once, then wait for loc while it stays put. */
  function WaitForElementResult(s: DriverState, loc: Locator, ticks: nat): (w: Wait)
    ensures s.CurrentURL().0.Err? ==>
              w == Wait(Some(s.CurrentURL().0.error), None, s.Read(Location))
    ensures w.err.None? ==>
              MatchesAt(s.script, w.after.now, loc) != [] && w.element == Some(MatchesAt(s.script, w.after.now, loc)[0])
    ensures w.err.None? ==> LocationAt(s.script, w.after.now) == LocationAt(s.script, s.now)
    ensures Follows(s, w.after) && w.after.actions == s.actions
  {
    var (url, s1) := s.CurrentURL();
    match url
    case Err(e) => Wait(Some(e), None, s1)
    case Ok(expected) => WaitResult(s1, UrlStable(expected, loc), ticks, None)
  }

  /**
   * The wait ends at the first time its condition is not pending: with that
   * time's error, or with the element found then.
   */
  lemma {:induction false} WaitStopsAtFirstEvent(s: DriverState, c: Condition, ticks: nat,
                                                 element: Option<Element>, i: nat)
    requires i <= ticks
    requires forall t :: s.now <= t < s.now + i ==> Pending(s.script, t, c)
    requires !Pending(s.script, s.now + i, c)
    ensures WaitResult(s, c, ticks, element).err == ConditionError(s.script, s.now + i, c)
    ensures WaitResult(s, c, ticks, element).err.None? ==>
              WaitResult(s, c, ticks, element).element == Some(MatchesAt(s.script, s.now + i, c.loc)[0])
    ensures WaitResult(s, c, ticks, element).after.now == s.now + i
    decreases i
  {
    var p := ConditionResult(s, c, element);
    if i > 0 {
      assert Pending(s.script, s.now, c);
      WaitStopsAtFirstEvent(p.after.Sleep(), c, ticks - 1, p.element, i - 1);
    }
  }

  /** When the condition stays pending at every poll, the wait ends in a timeout after its last poll. */
  lemma {:induction false} WaitTimesOut(s: DriverState, c: Condition, ticks: nat, element: Option<Element>)
    requires forall t :: s.now <= t <= s.now + ticks ==> Pending(s.script, t, c)
    ensures WaitResult(s, c, ticks, element).err == Some(TimeoutError)
    ensures WaitResult(s, c, ticks, element).after.now == s.now + ticks
    decreases ticks
  {
    assert Pending(s.script, s.now, c);
    var p := ConditionResult(s, c, element);
    if ticks > 0 {
      WaitTimesOut(p.after.Sleep(), c, ticks - 1, p.element);
    }
  }

  /** A timeout means the condition was pending at every poll: nothing else is reported as one. */
  lemma {:induction false} TimeoutOnlyWhenPending(s: DriverState, c: Condition, ticks: nat, element: Option<Element>)
    requires WaitResult(s, c, ticks, element).err == Some(TimeoutError)
    ensures forall t :: s.now <= t <= s.now + ticks ==> Pending(s.script, t, c)
    decreases ticks
  {
    var p := ConditionResult(s, c, element);
    assert Pending(s.script, s.now, c);
    if ticks > 0 {
      TimeoutOnlyWhenPending(p.after.Sleep(), c, ticks - 1, p.element);
    }
  }

  /**
   * A URL change before the element appears is reported as a ChangedURLError
   * naming the recorded and the new URL, never as a timeout, however late in
   * the wait it happens.
   */
  lemma ChangedURLBeforeFound(s: DriverState, loc: Locator, ticks: nat, i: nat, newURL: Url)
    requires LocationAt(s.script, s.now).Ok?
    requires i <= ticks
    requires forall t :: s.now <= t < s.now + i ==>
               LocationAt(s.script, t) == LocationAt(s.script, s.now) && MatchesAt(s.script, t, loc) == []
    requires LocationAt(s.script, s.now + i) == Ok(newURL) && Ok(newURL) != LocationAt(s.script, s.now)
    ensures WaitForElementResult(s, loc, ticks).err == Some(ChangedURLError(LocationAt(s.script, s.now).value, newURL))
  {
    var (url, s1) := s.CurrentURL();
    var c := UrlStable(url.value, loc);
    WaitStopsAtFirstEvent(s1, c, ticks, None, i);
  }

  /** The element found is the first match at the first poll where the URL is unchanged and the element exists. */
  lemma FoundAtFirstMatch(s: DriverState, loc: Locator, ticks: nat, i: nat)
    requires LocationAt(s.script, s.now).Ok?
    requires i <= ticks
    requires forall t :: s.now <= t < s.now + i ==>
               LocationAt(s.script, t) == LocationAt(s.script, s.now) && MatchesAt(s.script, t, loc) == []
    requires LocationAt(s.script, s.now + i) == LocationAt(s.script, s.now) && MatchesAt(s.script, s.now + i, loc) != []
    ensures WaitForElementResult(s, loc, ticks).err.None?
    ensures WaitForElementResult(s, loc, ticks).element == Some(MatchesAt(s.script, s.now + i, loc)[0])
  {
    var (url, s1) := s.CurrentURL();
    var c := UrlStable(url.value, loc);
    WaitStopsAtFirstEvent(s1, c, ticks, None, i);
  }

  /** waitForElementXPath times out only if at every poll the URL was the recorded one and the element absent. */
  lemma TimeoutMeansStableAndAbsent(s: DriverState, loc: Locator, ticks: nat)
    requires WaitForElementResult(s, loc, ticks).err == Some(TimeoutError)
    ensures LocationAt(s.script, s.now).Ok?
    ensures forall t :: s.now <= t <= s.now + ticks ==>
              LocationAt(s.script, t) == LocationAt(s.script, s.now) && MatchesAt(s.script, t, loc) == []
  {
    var (url, s1) := s.CurrentURL();
    if url.Ok? {
      var c := UrlStable(url.value, loc);
      TimeoutOnlyWhenPending(s1, c, ticks, None);
      forall t | s.now <= t <= s.now + ticks
        ensures LocationAt(s.script, t) == LocationAt(s.script, s.now) && MatchesAt(s.script, t, loc) == []
      {
        assert Pending(s1.script, t, c);
      }
    }
  }

  /** The condition closure of waitForElementXPath (webdriver.go:24-39); `element` is the captured variable. */
  method CheckCondition(d: Driver, c: Condition, element: Option<Element>)
    returns (done: bool, err: Option<Error>, captured: Option<Element>)
    modifies d
    ensures Poll(done, err, captured, d.State()) == ConditionResult(old(d.State()), c, element)
  {
    captured := element;
    match c
    case UrlStable(expected, loc) =>
      var url := d.CurrentURL();
      if url.Err? {
        return false, Some(url.error), captured;
      }
      if url.value != expected {
        return false, Some(ChangedURLError(expected, url.value)), captured;
      }
      var found := d.FindElement(loc);
      captured := FoundElement(found);
      return found.Ok?, None, captured;
    case Present(loc) =>
      var found := d.FindElement(loc);
      captured := FoundElement(found);
      return found.Ok?, None, captured;
  }

  /** selenium's WebDriver.WaitWithTimeout, as the core relies on it. */
  method WaitWithTimeout(d: Driver, c: Condition, ticks: nat, element: Option<Element>)
    returns (err: Option<Error>, captured: Option<Element>)
    modifies d
    ensures Wait(err, captured, d.State()) == WaitResult(old(d.State()), c, ticks, element)
  {
    ghost var goal := WaitResult(d.State(), c, ticks, element);
    captured := element;
    var left := ticks;
    while true
      invariant WaitResult(d.State(), c, left, captured) == goal
      decreases left
    {
      ghost var before, previous := d.State(), captured;
      var done;
      done, err, captured := CheckCondition(d, c, captured);
      ghost var p := ConditionResult(before, c, previous);
      assert p == Poll(done, err, captured, d.State());
      assert WaitResult(before, c, left, previous) ==
        if p.err.Some? then Wait(p.err, p.element, p.after)
        else if p.done then Wait(None, p.element, p.after)
        else if left == 0 then Wait(Some(TimeoutError), p.element, p.after)
        else WaitResult(p.after.Sleep(), c, left - 1, p.element);
      if err.Some? || done {
        return;
      }
      if left == 0 {
        err := Some(TimeoutError);
        return;
      }
      d.Sleep();
      left := left - 1;
    }
  }

  /** waitForElementXPath (webdriver.go:16-43). */
  method WaitForElementXPath(d: Driver, loc: Locator, ticks: nat) returns (element: Option<Element>, err: Option<Error>)
    modifies d
    ensures Wait(err, element, d.State()) == WaitForElementResult(old(d.State()), loc, ticks)
  {
    var url := d.CurrentURL();
    if url.Err? {
      return None, Some(url.error);
    }
    err, element := WaitWithTimeout(d, UrlStable(url.value, loc), ticks, None);
  }
}
