/**
 * An abstract, scripted stand-in for the selenium.WebDriver the core talks to.
 *
 * The browser's own progress is a fixed script of snapshots, one per poll
 * interval: what CurrentURL reports and which elements each locator matches.
 * The clock `now` selects the snapshot on view; it moves only when the core
 * sleeps, so every read between two sleeps sees the same page. Reads past the
 * end of the script fail as a closed session does. Every call the core issues
 * is logged: page-changing calls in `actions`, reads in `lookups`.
 */
module Browser {
  import opened Errors

  type Url = string

  /** An XPath expression, treated as an opaque key. */
  type Locator = string

  datatype Op = OpClear | OpClick | OpSendKeys

  /** A DOM element: an identity, its attributes, and the operations the browser refuses on it. */
  datatype Element = Element(id: nat, attributes: map<string, string>, refuses: set<Op>)

  /** The elements each locator matches, in document order; a locator missing from the map cannot be evaluated. */
  type Page = map<Locator, seq<Element>>

  /** What the browser shows during one poll interval; a location of None means CurrentURL fails. */
  datatype Snapshot = Snapshot(location: Option<Url>, page: Page)

  /** Calls that change the browser. */
  datatype Action =
    | Get(url: Url)
    | Clear(el: Element)
    | Click(el: Element)
    | SendKeys(el: Element, keys: string)
    | ExecuteScript

  /** Calls that only read the browser. */
  datatype Lookup =
    | Location
    | Find(loc: Locator)
    | FindAll(loc: Locator)
    | Attribute(el: Element, name: string)

  function DriverError(text: string): Error
  {
    Error(Driver(text), [])
  }

  /** What CurrentURL reports at time t. */
  function LocationAt(script: seq<Snapshot>, t: nat): Result<Url>
  {
    if t < |script| && script[t].location.Some? then Ok(script[t].location.value)
    else if t < |script| then Err(DriverError("unknown error: cannot determine loading status"))
    else Err(DriverError("invalid session id"))
  }

  /** The elements loc matches at time t; nothing once the session is over. */
  function MatchesAt(script: seq<Snapshot>, t: nat, loc: Locator): seq<Element>
  {
    if t < |script| && loc in script[t].page then script[t].page[loc] else []
  }

  datatype DriverState = DriverState(
    script: seq<Snapshot>,
    now: nat,
    unreachable: set<Url>,   // URLs whose Get fails
    scriptFails: bool,       // whether ExecuteScript fails
    actions: seq<Action>,
    lookups: seq<Lookup>)
  {
    /** Poll intervals left before the session is over. */
    function Remaining(): nat
    {
      if now < |script| then |script| - now else 0
    }

    /** Whether the browser carries out an action or answers it with an error. */
    predicate Accepts(a: Action)
    {
      match a
      case Get(url) => url !in unreachable
      case Clear(el) => OpClear !in el.refuses
      case Click(el) => OpClick !in el.refuses
      case SendKeys(el, _) => OpSendKeys !in el.refuses
      case ExecuteScript => !scriptFails
    }

    function Read(l: Lookup): DriverState
    {
      this.(lookups := lookups + [l])
    }

    /** WebDriver.CurrentURL */
    function CurrentURL(): (Result<Url>, DriverState)
    {
      (LocationAt(script, now), Read(Location))
    }

    /** WebDriver.FindElement: the first match, or an error when there is none. */
    function FindElement(loc: Locator): (Result<Element>, DriverState)
    {
      var matches := MatchesAt(script, now, loc);
      (if matches != [] then Ok(matches[0]) else Err(DriverError("no such element: " + loc)), Read(Find(loc)))
    }

    /** WebDriver.FindElements: every match, or an error when the locator cannot be evaluated. */
    function FindElements(loc: Locator): (Result<seq<Element>>, DriverState)
    {
      (if now < |script| && loc in script[now].page then Ok(script[now].page[loc])
       else Err(DriverError("invalid selector: " + loc)),
       Read(FindAll(loc)))
    }

    /** WebElement.GetAttribute: an error when the attribute is absent. */
    function GetAttribute(el: Element, name: string): (Result<string>, DriverState)
    {
      (if name in el.attributes then Ok(el.attributes[name]) else Err(DriverError("nil return value")),
       Read(Attribute(el, name)))
    }

    /** WebDriver.Get, WebElement.Clear/Click/SendKeys and WebDriver.ExecuteScript. */
    function Perform(a: Action): (Option<Error>, DriverState)
    {
      (if Accepts(a) then None else Some(DriverError("element not interactable")),
       this.(actions := actions + [a]))
    }

    /** time.Sleep for one poll interval. */
    function Sleep(): DriverState
    {
      this.(now := now + 1)
    }
  }

  /**
   * s2 is a later state of the same session as s1: same script and settings,
   * the clock not earlier, and both logs extended.
   */
  predicate Follows(s1: DriverState, s2: DriverState)
  {
    s2.script == s1.script && s2.unreachable == s1.unreachable && s2.scriptFails == s1.scriptFails &&
    s1.now <= s2.now && s1.actions <= s2.actions && s1.lookups <= s2.lookups
  }

  /** The browser driver object; its methods do what the DriverState functions describe. */
  class Driver {
    const script: seq<Snapshot>
    const unreachable: set<Url>
    const scriptFails: bool
    var now: nat
    var actions: seq<Action>
    var lookups: seq<Lookup>

    function State(): DriverState
      reads this
    {
      DriverState(script, now, unreachable, scriptFails, actions, lookups)
    }

    constructor (script: seq<Snapshot>, unreachable: set<Url>, scriptFails: bool)
      ensures State() == DriverState(script, 0, unreachable, scriptFails, [], [])
    {
      this.script := script;
      this.unreachable := unreachable;
      this.scriptFails := scriptFails;
      now := 0;
      actions := [];
      lookups := [];
    }

    method CurrentURL() returns (r: Result<Url>)
      modifies this
      ensures (r, State()) == old(State()).CurrentURL()
    {
      r := LocationAt(script, now);
      lookups := lookups + [Location];
    }

    method FindElement(loc: Locator) returns (r: Result<Element>)
      modifies this
      ensures (r, State()) == old(State()).FindElement(loc)
    {
      var matches := MatchesAt(script, now, loc);
      r := if matches != [] then Ok(matches[0]) else Err(DriverError("no such element: " + loc));
      lookups := lookups + [Find(loc)];
    }

    method FindElements(loc: Locator) returns (r: Result<seq<Element>>)
      modifies this
      ensures (r, State()) == old(State()).FindElements(loc)
    {
      r := if now < |script| && loc in script[now].page then Ok(script[now].page[loc])
           else Err(DriverError("invalid selector: " + loc));
      lookups := lookups + [FindAll(loc)];
    }

    method GetAttribute(el: Element, name: string) returns (r: Result<string>)
      modifies this
      ensures (r, State()) == old(State()).GetAttribute(el, name)
    {
      r := if name in el.attributes then Ok(el.attributes[name]) else Err(DriverError("nil return value"));
      lookups := lookups + [Attribute(el, name)];
    }

    method Perform(a: Action) returns (err: Option<Error>)
      modifies this
      ensures (err, State()) == old(State()).Perform(a)
    {
      err := if State().Accepts(a) then None else Some(DriverError("element not interactable"));
      actions := actions + [a];
    }

    method Sleep()
      modifies this
      ensures State() == old(State()).Sleep()
    {
      now := now + 1;
    }
  }
}
