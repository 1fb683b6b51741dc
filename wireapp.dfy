/**
 * The session core of wireapp.go: logging in, walking the pages that follow
 * the login until the home view, listing conversations, finding one by its
 * topic and posting a message into it.
 *
 * Each operation is a function of the driver state (what it returns and the
 * state it leaves) and a method on the WireApp / Conversation objects that
 * issues the same driver calls one by one and is proved to agree with it.
 */
module WireApp {
  import opened Errors
  import opened Browser
  import opened WebDriver

  const RootURL: Url := "https://app.wire.com/"
  const LoginURL: Url := RootURL + "auth/#login"
  const ClientsURL: Url := RootURL + "auth/#clients"
  const HistoryInfoURL: Url := RootURL + "auth/#historyinfo"

  const EmailField: Locator := "//input[@name='email']"
  const PasswordField: Locator := "//input[@name='password']"
  const SubmitButton: Locator := "//button[@type='submit']"
  const RemoveDeviceDiv: Locator := "//div[@data-uie-name='go-remove-device']"
  const HistoryConfirmButton: Locator := "//button[@data-uie-name='do-history-confirm']"
  const ConversationCells: Locator := "//conversation-list-cell/div[contains(@class,'conversation-list-cell')]"
  const MessageTextarea: Locator := "//textarea[@id='conversation-input-bar-text']"

  function ConversationDiv(uuid: string): Locator
  {
    "//div[@data-uie-uid='" + uuid + "']"
  }

  function ActiveConversationDiv(uuid: string): Locator
  {
    "//div[@data-uie-uid='" + uuid + "' and contains(@class,'conversation-list-cell-active')]"
  }

  const UidAttribute := "data-uie-uid"
  const TopicAttribute := "data-uie-value"

  /** selenium.EnterKey */
  const EnterKey := "\U{E007}"

  const CredentialsError: Error := Errorf("username or password is not set properly")

  // ---------------------------------------------------------------------------
  // Call plans: the order in which an operation touches the page
  // ---------------------------------------------------------------------------

  /** An action with the element it targets forgotten. */
  datatype Gesture = Navigate(url: Url) | Clearing | Clicking | Typing(keys: string) | Scripting

  function GestureOf(a: Action): Gesture
  {
    match a
    case Get(url) => Navigate(url)
    case Clear(_) => Clearing
    case Click(_) => Clicking
    case SendKeys(_, keys) => Typing(keys)
    case ExecuteScript => Scripting
  }

  /** The element an action works on, if any. */
  function Target(a: Action): Option<Element>
  {
    match a
    case Clear(el) => Some(el)
    case Click(el) => Some(el)
    case SendKeys(el, _) => Some(el)
    case _ => None
  }

  /** Every action went to the element el. */
  predicate AllOn(acts: seq<Action>, el: Element)
  {
    forall j :: 0 <= j < |acts| ==> Target(acts[j]) == Some(el)
  }

  /** The actions are, gesture for gesture, a prefix of the plan. */
  predicate Follow(acts: seq<Action>, plan: seq<Gesture>)
  {
    |acts| <= |plan| && forall j :: 0 <= j < |acts| ==> GestureOf(acts[j]) == plan[j]
  }

  /** The actions issued between s1 and s2. */
  function Appended(s1: DriverState, s2: DriverState): seq<Action>
  {
    if |s1.actions| <= |s2.actions| then s2.actions[|s1.actions|..] else []
  }

  /**
   * A run of `plan`: the actions issued follow the plan in order, none is
   * issued after one the browser refused, and the run succeeded exactly when
   * the whole plan was issued and accepted.
   */
  predicate RunsPlan(s: DriverState, acts: seq<Action>, plan: seq<Gesture>, ok: bool)
  {
    Follow(acts, plan) &&
    (forall j :: 0 <= j < |acts| - 1 ==> s.Accepts(acts[j])) &&
    (ok <==> |acts| == |plan| && forall j :: 0 <= j < |acts| ==> s.Accepts(acts[j]))
  }

  /** The operation that started in s and ended with o ran `plan`, reporting an error exactly when the run failed. */
  predicate Ran(s: DriverState, o: Outcome, plan: seq<Gesture>)
  {
    Follows(s, o.after) && RunsPlan(s, Appended(s, o.after), plan, o.err.None?)
  }

  /** The actions issued from s to y are those from s to x, then those from x to y. */
  lemma AppendedSplit(s: DriverState, x: DriverState, y: DriverState)
    requires Follows(s, x) && Follows(x, y)
    ensures Appended(s, y) == Appended(s, x) + Appended(x, y)
  {
    assert y.actions == s.actions + (Appended(s, x) + Appended(x, y));
  }

  /** An operation that gave up before its first action, after reads only. */
  lemma Untouched(s: DriverState, x: DriverState, err: Option<Error>, plan: seq<Gesture>)
    requires Follows(s, x) && x.actions == s.actions && err.Some? && plan != []
    ensures Ran(s, Outcome(err, x), plan) && Appended(s, x) == []
  {
  }

  /** Reads before an operation do not change what it ran. */
  lemma RanAfter(s: DriverState, x: DriverState, o: Outcome, plan: seq<Gesture>)
    requires Follows(s, x) && x.actions == s.actions && Ran(x, o, plan)
    ensures Ran(s, o, plan) && Appended(s, o.after) == Appended(x, o.after)
  {
    var acts := Appended(x, o.after);
    forall j | 0 <= j < |acts|
      ensures s.Accepts(acts[j]) == x.Accepts(acts[j])
    {
    }
  }

  /** One guarded action is a run of its own gesture. */
  lemma ActRuns(s: DriverState, a: Action, context: string)
    ensures Ran(s, Act(s, a, context), [GestureOf(a)]) && Appended(s, Act(s, a, context).after) == [a]
  {
    var o := Act(s, a, context);
    assert (s.actions + [a])[|s.actions|..] == [a];
    assert Appended(s, o.after) == [a];
    assert Follow([a], [GestureOf(a)]);
    assert o.err.None? <==> s.Accepts([a][0]);
  }

  /** Two states of one session accept the same actions. */
  lemma SameAccepts(s: DriverState, x: DriverState)
    requires Follows(s, x)
    ensures forall a :: x.Accepts(a) == s.Accepts(a)
  {
  }

  /** A complete, accepted run of p1 followed by a run of p2 is a run of p1 + p2. */
  lemma {:induction false} ConcatRuns(s: DriverState, a: seq<Action>, p1: seq<Gesture>, b: seq<Action>, p2: seq<Gesture>, ok: bool)
    requires RunsPlan(s, a, p1, true) && RunsPlan(s, b, p2, ok)
    ensures RunsPlan(s, a + b, p1 + p2, ok)
  {
    var acts := a + b;
    forall j | |a| <= j < |acts|
      ensures acts[j] == b[j - |a|] && (p1 + p2)[j] == p2[j - |a|]
    {
    }
    assert Follow(acts, p1 + p2);
    if !ok && |b| == |p2| {
      var k :| 0 <= k < |b| && !s.Accepts(b[k]);
      assert acts[|a| + k] == b[k];
    }
  }

  /** A run of p1 that succeeded, followed by a run of p2, is a run of p1 + p2. */
  lemma RanThen(s: DriverState, o1: Outcome, p1: seq<Gesture>, o2: Outcome, p2: seq<Gesture>)
    requires Ran(s, o1, p1) && o1.err.None? && Ran(o1.after, o2, p2)
    ensures Ran(s, o2, p1 + p2)
    ensures Appended(s, o2.after) == Appended(s, o1.after) + Appended(o1.after, o2.after)
  {
    var a := Appended(s, o1.after);
    var b := Appended(o1.after, o2.after);
    assert o2.after.actions == s.actions + (a + b);
    assert Appended(s, o2.after) == a + b;
    SameAccepts(s, o1.after);
    assert RunsPlan(s, b, p2, o2.err.None?);
    ConcatRuns(s, a, p1, b, p2, o2.err.None?);
  }

  /** A run of p1 that succeeded, followed by a failure before any action of p2, failed as a run of p1 + p2. */
  lemma FailedBetween(s: DriverState, o1: Outcome, p1: seq<Gesture>, o: Outcome, p2: seq<Gesture>)
    requires Ran(s, o1, p1) && o1.err.None?
    requires Follows(o1.after, o.after) && o.after.actions == o1.after.actions && o.err.Some? && p2 != []
    ensures Ran(s, o, p1 + p2) && Appended(s, o.after) == Appended(s, o1.after)
  {
    Untouched(o1.after, o.after, o.err, p2);
    RanThen(s, o1, p1, o, p2);
  }

  /** A run that failed within p1 failed as a run of any longer plan p1 + p2. */
  lemma RanStopped(s: DriverState, o: Outcome, p1: seq<Gesture>, p2: seq<Gesture>)
    requires Ran(s, o, p1) && o.err.Some?
    ensures Ran(s, o, p1 + p2)
  {
  }

  /** The operation from s to o issued at least one action, and the browser refused the last one. */
  predicate Refused(s: DriverState, o: Outcome)
  {
    var acts := Appended(s, o.after);
    acts != [] && !s.Accepts(acts[|acts| - 1])
  }

  /** A refusal after some reads or accepted actions is still the refusal of the whole operation. */
  lemma RefusedAfter(s: DriverState, x: DriverState, o: Outcome)
    requires Follows(s, x) && Follows(x, o.after)
    requires o.err.Some? ==> Refused(x, o)
    ensures o.err.Some? ==> Refused(s, o)
  {
    if o.err.None? {
      return;
    }
    AppendedSplit(s, x, o.after);
    var a, b := Appended(s, x), Appended(x, o.after);
    assert (a + b)[|a + b| - 1] == b[|b| - 1];
    SameAccepts(s, x);
  }

  // ---------------------------------------------------------------------------
  // Guarded driver calls
  // ---------------------------------------------------------------------------

  /** What an operation that only reports an error returns, and the driver state it leaves. */
  datatype Outcome = Outcome(err: Option<Error>, after: DriverState)

  /**
   * One guarded driver call of the core: `err = x.Op(); if err != nil {
   * return errors.Wrap(err, context) }`.
   */
  function Act(s: DriverState, a: Action, context: string): (o: Outcome)
    ensures o.after == s.(actions := s.actions + [a])
    ensures o.err.None? <==> s.Accepts(a)
    ensures o.err.Some? ==> Cause(o.err.value).Driver? && o.err.value.context == [context]
  {
    var (err, after) := s.Perform(a);
    Outcome(Wrap(err, context), after)
  }

  /** Clear a field, then type into it. */
  function ClearAndType(s: DriverState, el: Element, keys: string, clearing: string, typing: string): (o: Outcome)
    ensures Ran(s, o, [Clearing] + [Typing(keys)]) && AllOn(Appended(s, o.after), el)
    ensures o.err.Some? ==> Cause(o.err.value).Driver? && Refused(s, o)
  {
    var o1 := Act(s, Clear(el), clearing);
    ActRuns(s, Clear(el), clearing);
    if o1.err.Some? then
      RanStopped(s, o1, [Clearing], [Typing(keys)]);
      o1
    else
      var o2 := Act(o1.after, SendKeys(el, keys), typing);
      ActRuns(o1.after, SendKeys(el, keys), typing);
      RanThen(s, o1, [Clearing], o2, [Typing(keys)]);
      RefusedAfter(s, o1.after, o2);
      o2
  }

  /** Type into an element, then press Enter in it. */
  function TypeAndEnter(s: DriverState, el: Element, keys: string, typing: string): (o: Outcome)
    ensures Ran(s, o, [Typing(keys)] + [Typing(EnterKey)]) && AllOn(Appended(s, o.after), el)
    ensures o.err.Some? ==> Cause(o.err.value).Driver? && Refused(s, o)
  {
    var o1 := Act(s, SendKeys(el, keys), typing);
    ActRuns(s, SendKeys(el, keys), typing);
    if o1.err.Some? then
      RanStopped(s, o1, [Typing(keys)], [Typing(EnterKey)]);
      o1
    else
      var o2 := Act(o1.after, SendKeys(el, EnterKey), "could not send enter keystroke");
      ActRuns(o1.after, SendKeys(el, EnterKey), "could not send enter keystroke");
      RanThen(s, o1, [Typing(keys)], o2, [Typing(EnterKey)]);
      RefusedAfter(s, o1.after, o2);
      o2
  }

  /** Click an element, type into it and press Enter. */
  function ClickTypeEnter(s: DriverState, el: Element, keys: string, clicking: string, typing: string): (o: Outcome)
    ensures Ran(s, o, [Clicking] + ([Typing(keys)] + [Typing(EnterKey)])) && AllOn(Appended(s, o.after), el)
    ensures o.err.Some? ==> Cause(o.err.value).Driver? && Refused(s, o)
  {
    var o1 := Act(s, Click(el), clicking);
    ActRuns(s, Click(el), clicking);
    if o1.err.Some? then
      RanStopped(s, o1, [Clicking], [Typing(keys)] + [Typing(EnterKey)]);
      o1
    else
      var o2 := TypeAndEnter(o1.after, el, keys, typing);
      RanThen(s, o1, [Clicking], o2, [Typing(keys)] + [Typing(EnterKey)]);
      RefusedAfter(s, o1.after, o2);
      o2
  }

  // ---------------------------------------------------------------------------
  // Login (wireapp.go:50-101)
  // ---------------------------------------------------------------------------

  /** What login does to the page: open it, fill in both fields, submit. */
  function LoginPlan(username: string, password: string): seq<Gesture>
  {
    [Navigate(LoginURL)] + (([Clearing] + [Typing(username)]) + (([Clearing] + [Typing(password)]) + [Clicking]))
  }

  /** Wait for the email field, then clear it and type the username into it (wireapp.go:57-71). */
  function EnterEmail(s: DriverState, username: string): (o: Outcome)
    ensures Follows(s, o.after)
    ensures Ran(s, o, [Clearing] + [Typing(username)])
    ensures var w := WaitForElementResult(s, EmailField, WaitTicks);
      (w.err.Some? ==> o.err.Some? && Appended(s, o.after) == []) &&
      (w.err.None? && o.err.Some? ==> Refused(s, o)) &&
      (Appended(s, o.after) != [] ==> w.err.None? && AllOn(Appended(s, o.after), MatchesAt(s.script, w.after.now, EmailField)[0]))
  {
    var w := WaitForElementResult(s, EmailField, WaitTicks);
    if w.err.Some? then
      Untouched(s, w.after, Wrap(w.err, "could not find email field"), [Clearing] + [Typing(username)]);
      Outcome(Wrap(w.err, "could not find email field"), w.after)
    else
      var o := ClearAndType(w.after, w.element.value, username, "could not clear email field", "could not send email keystrokes");
      RanAfter(s, w.after, o, [Clearing] + [Typing(username)]);
      RefusedAfter(s, w.after, o);
      o
  }

  /** Find the password field, then clear it and type the password into it (wireapp.go:73-87). */
  function EnterPassword(s: DriverState, password: string): (o: Outcome)
    ensures Follows(s, o.after)
    ensures Ran(s, o, [Clearing] + [Typing(password)])
    ensures MatchesAt(s.script, s.now, PasswordField) == [] ==> o.err.Some? && Appended(s, o.after) == []
    ensures MatchesAt(s.script, s.now, PasswordField) != [] && o.err.Some? ==> Refused(s, o)
    ensures Appended(s, o.after) != [] ==>
              MatchesAt(s.script, s.now, PasswordField) != [] &&
              AllOn(Appended(s, o.after), MatchesAt(s.script, s.now, PasswordField)[0])
  {
    var (field, s1) := s.FindElement(PasswordField);
    if field.Err? then
      Untouched(s, s1, Wrap(Some(field.error), "could not find password field"), [Clearing] + [Typing(password)]);
      Outcome(Wrap(Some(field.error), "could not find password field"), s1)
    else
      var o := ClearAndType(s1, field.value, password, "could not clear password field", "could not send password keystrokes");
      RanAfter(s, s1, o, [Clearing] + [Typing(password)]);
      RefusedAfter(s, s1, o);
      o
  }

  /** Find the submit button and click it (wireapp.go:89-98). */
  function Submit(s: DriverState): (o: Outcome)
    ensures Follows(s, o.after)
    ensures Ran(s, o, [Clicking])
    ensures MatchesAt(s.script, s.now, SubmitButton) == [] ==> o.err.Some? && Appended(s, o.after) == []
    ensures MatchesAt(s.script, s.now, SubmitButton) != [] && o.err.Some? ==> Refused(s, o)
    ensures Appended(s, o.after) != [] ==>
              MatchesAt(s.script, s.now, SubmitButton) != [] &&
              Appended(s, o.after) == [Click(MatchesAt(s.script, s.now, SubmitButton)[0])]
  {
    var (button, s1) := s.FindElement(SubmitButton);
    if button.Err? then
      Untouched(s, s1, Wrap(Some(button.error), "could not find submit button"), [Clicking]);
      Outcome(Wrap(Some(button.error), "could not find submit button"), s1)
    else
      var o := Act(s1, Click(button.value), "could not click on submit button");
      ActRuns(s1, Click(button.value), "could not click on submit button");
      RanAfter(s, s1, o, [Clicking]);
      RefusedAfter(s, s1, o);
      o
  }

  /** login (wireapp.go:50-101). */
  function LoginResult(s: DriverState, username: string, password: string): (o: Outcome)
    ensures Follows(s, o.after)
  {
    var o0 := Act(s, Get(LoginURL), "getting login url failed");
    if o0.err.Some? then o0 else
    var o1 := EnterEmail(o0.after, username);
    if o1.err.Some? then o1 else
    var o2 := EnterPassword(o1.after, password);
    if o2.err.Some? then o2 else
    Submit(o2.after)
  }

  /**
   * login opens the login page, clears the email field and types the user
   * name, clears the password field and types the password, and clicks
   * submit, in this order; it stops at the first call that fails and
   * succeeds exactly when all six were carried out.
   */
  lemma LoginRunsPlan(s: DriverState, username: string, password: string)
    ensures Ran(s, LoginResult(s, username, password), LoginPlan(username, password))
    ensures Appended(s, LoginResult(s, username, password).after) != [] &&
            Appended(s, LoginResult(s, username, password).after)[0] == Get(LoginURL)
  {
    var email := [Clearing] + [Typing(username)];
    var pass := [Clearing] + [Typing(password)];
    var o0 := Act(s, Get(LoginURL), "getting login url failed");
    ActRuns(s, Get(LoginURL), "getting login url failed");
    if o0.err.Some? {
      RanStopped(s, o0, [Navigate(LoginURL)], email + (pass + [Clicking]));
      return;
    }
    var o1 := EnterEmail(o0.after, username);
    if o1.err.Some? {
      RanStopped(o0.after, o1, email, pass + [Clicking]);
      RanThen(s, o0, [Navigate(LoginURL)], o1, email + (pass + [Clicking]));
      return;
    }
    var o2 := EnterPassword(o1.after, password);
    if o2.err.Some? {
      RanStopped(o1.after, o2, pass, [Clicking]);
      RanThen(o0.after, o1, email, o2, pass + [Clicking]);
      RanThen(s, o0, [Navigate(LoginURL)], o2, email + (pass + [Clicking]));
      return;
    }
    var o3 := Submit(o2.after);
    RanThen(o1.after, o2, pass, o3, [Clicking]);
    RanThen(o0.after, o1, email, o3, pass + [Clicking]);
    RanThen(s, o0, [Navigate(LoginURL)], o3, email + (pass + [Clicking]));
  }

  /**
   * login stops at its first failing step. When the email field never shows,
   * or the password field or the submit button is missing, it fails with the
   * actions of the steps before and no more.
   */
  lemma LoginStopsAtFailedLookup(s: DriverState, username: string, password: string)
    ensures var o := LoginResult(s, username, password);
      var g := Act(s, Get(LoginURL), "getting login url failed");
      var email := EnterEmail(g.after, username);
      var pass := EnterPassword(email.after, password);
      (g.err.None? && WaitForElementResult(g.after, EmailField, WaitTicks).err.Some? ==>
         o.err.Some? && Appended(s, o.after) == [Get(LoginURL)]) &&
      (g.err.None? && email.err.None? && MatchesAt(s.script, email.after.now, PasswordField) == [] ==>
         o.err.Some? && Appended(s, o.after) == Appended(s, email.after)) &&
      (g.err.None? && email.err.None? && pass.err.None? && MatchesAt(s.script, pass.after.now, SubmitButton) == [] ==>
         o.err.Some? && Appended(s, o.after) == Appended(s, pass.after))
  {
    var g := Act(s, Get(LoginURL), "getting login url failed");
    ActRuns(s, Get(LoginURL), "getting login url failed");
    if g.err.None? {
      var email := EnterEmail(g.after, username);
      if WaitForElementResult(g.after, EmailField, WaitTicks).err.Some? {
        AppendedSplit(s, g.after, email.after);
        assert [Get(LoginURL)] + [] == [Get(LoginURL)];
      } else if email.err.None? {
        var pass := EnterPassword(email.after, password);
        if pass.err.Some? {
          assert LoginResult(s, username, password) == pass;
        } else {
          assert LoginResult(s, username, password) == Submit(pass.after);
        }
      }
    }
  }

  /**
   * login fails only for a cause: the browser refused the last action it was
   * given (the Get of the login page included), the email field never showed,
   * or the password field or the submit button was missing. So with every
   * lookup answered and every action accepted, login succeeds, and then it
   * has issued its whole plan.
   */
  lemma LoginFailsOnlyForACause(s: DriverState, username: string, password: string)
    ensures var o := LoginResult(s, username, password);
      var g := Act(s, Get(LoginURL), "getting login url failed");
      var email := EnterEmail(g.after, username);
      var pass := EnterPassword(email.after, password);
      o.err.Some? ==>
        Refused(s, o) ||
        (g.err.None? && WaitForElementResult(g.after, EmailField, WaitTicks).err.Some?) ||
        (g.err.None? && email.err.None? && MatchesAt(s.script, email.after.now, PasswordField) == []) ||
        (g.err.None? && email.err.None? && pass.err.None? && MatchesAt(s.script, pass.after.now, SubmitButton) == [])
  {
    var g := Act(s, Get(LoginURL), "getting login url failed");
    ActRuns(s, Get(LoginURL), "getting login url failed");
    if g.err.Some? {
      return;
    }
    var email := EnterEmail(g.after, username);
    if email.err.Some? {
      if WaitForElementResult(g.after, EmailField, WaitTicks).err.None? {
        RefusedAfter(s, g.after, email);
      }
      return;
    }
    var pass := EnterPassword(email.after, password);
    if pass.err.Some? {
      if MatchesAt(s.script, email.after.now, PasswordField) != [] {
        RefusedAfter(s, email.after, pass);
      }
      return;
    }
    var o := Submit(pass.after);
    assert LoginResult(s, username, password) == o;
    if MatchesAt(s.script, pass.after.now, SubmitButton) != [] {
      RefusedAfter(s, pass.after, o);
    }
  }

  // ---------------------------------------------------------------------------
  // The prompts after login (wireapp.go:154-205)
  // ---------------------------------------------------------------------------

  function AuthClientsPlan(password: string): seq<Gesture>
  {
    [Clicking] + ([Clicking] + ([Typing(password)] + [Typing(EnterKey)]))
  }

  /** Wait for the remove-device control and click it (wireapp.go:156-166). */
  function RemoveDevice(s: DriverState): (o: Outcome)
    ensures Ran(s, o, [Clicking])
    ensures var w := WaitForElementResult(s, RemoveDeviceDiv, WaitTicks);
      (w.err.Some? ==> o.err.Some? && Appended(s, o.after) == []) &&
      (w.err.None? && o.err.Some? ==> Refused(s, o)) &&
      (Appended(s, o.after) != [] ==> w.err.None? && Appended(s, o.after) == [Click(MatchesAt(s.script, w.after.now, RemoveDeviceDiv)[0])])
    ensures o.err.Some? && Cause(o.err.value).ChangedURL? ==> Appended(s, o.after) == []
  {
    var w := WaitForElementResult(s, RemoveDeviceDiv, WaitTicks);
    if w.err.Some? then
      Untouched(s, w.after, Wrap(w.err, "could not find remove device div"), [Clicking]);
      Outcome(Wrap(w.err, "could not find remove device div"), w.after)
    else
      var o := Act(w.after, Click(w.element.value), "could not click remove device div");
      ActRuns(w.after, Click(w.element.value), "could not click remove device div");
      RanAfter(s, w.after, o, [Clicking]);
      RefusedAfter(s, w.after, o);
      o
  }

  /** Find the password field, click it, type the password and Enter (wireapp.go:168-186). */
  function ConfirmPassword(s: DriverState, password: string): (o: Outcome)
    ensures Ran(s, o, [Clicking] + ([Typing(password)] + [Typing(EnterKey)]))
    ensures o.err.Some? ==> Cause(o.err.value).Driver?
    ensures MatchesAt(s.script, s.now, PasswordField) == [] ==> o.err.Some? && Appended(s, o.after) == []
    ensures MatchesAt(s.script, s.now, PasswordField) != [] && o.err.Some? ==> Refused(s, o)
    ensures Appended(s, o.after) != [] ==>
              MatchesAt(s.script, s.now, PasswordField) != [] &&
              AllOn(Appended(s, o.after), MatchesAt(s.script, s.now, PasswordField)[0])
  {
    var plan := [Clicking] + ([Typing(password)] + [Typing(EnterKey)]);
    var (field, s1) := s.FindElement(PasswordField);
    if field.Err? then
      Untouched(s, s1, Wrap(Some(field.error), "could not find password field"), plan);
      Outcome(Wrap(Some(field.error), "could not find password field"), s1)
    else
      var o := ClickTypeEnter(s1, field.value, password, "could not click password field", "could not send password keystrokes");
      RanAfter(s, s1, o, plan);
      RefusedAfter(s, s1, o);
      o
  }

  /** pageAuthClients: remove a device to get under the device limit (wireapp.go:154-189). */
  function AuthClientsResult(s: DriverState, password: string): (o: Outcome)
    ensures Follows(s, o.after)
  {
    var o1 := RemoveDevice(s);
    if o1.err.Some? then o1 else ConfirmPassword(o1.after, password)
  }

  /**
   * pageAuthClients clicks the remove-device control, then clicks the
   * password field and types the password and Enter into it, stopping at the
   * first failure. A ChangedURLError can only come from the first wait,
   * before anything was clicked.
   */
  lemma AuthClientsRunsPlan(s: DriverState, password: string)
    ensures Ran(s, AuthClientsResult(s, password), AuthClientsPlan(password))
    ensures var o := AuthClientsResult(s, password);
      o.err.Some? && Cause(o.err.value).ChangedURL? ==> Appended(s, o.after) == []
  {
    var rest := [Clicking] + ([Typing(password)] + [Typing(EnterKey)]);
    var o1 := RemoveDevice(s);
    if o1.err.Some? {
      RanStopped(s, o1, [Clicking], rest);
    } else {
      RanThen(s, o1, [Clicking], ConfirmPassword(o1.after, password), rest);
    }
  }

  /**
   * pageAuthClients stops at its first failing step: no click when the
   * remove-device control never shows, and only that click when the password
   * field is missing.
   */
  lemma AuthClientsStopsAtFailedLookup(s: DriverState, password: string)
    ensures var o := AuthClientsResult(s, password);
      var removed := RemoveDevice(s);
      (WaitForElementResult(s, RemoveDeviceDiv, WaitTicks).err.Some? ==> o.err.Some? && Appended(s, o.after) == []) &&
      (removed.err.None? && MatchesAt(s.script, removed.after.now, PasswordField) == [] ==>
         o.err.Some? && Appended(s, o.after) == Appended(s, removed.after))
  {
    var removed := RemoveDevice(s);
    if removed.err.None? {
      var confirmed := ConfirmPassword(removed.after, password);
      assert AuthClientsResult(s, password) == confirmed;
    }
  }

  /**
   * pageAuthClients fails only for a cause: the remove-device control never
   * showed, the password field was missing, or the browser refused the last
   * action it was given. With both found and every action accepted it
   * succeeds, having issued its whole plan.
   */
  lemma AuthClientsFailsOnlyForACause(s: DriverState, password: string)
    ensures var o := AuthClientsResult(s, password);
      var removed := RemoveDevice(s);
      o.err.Some? ==>
        Refused(s, o) ||
        WaitForElementResult(s, RemoveDeviceDiv, WaitTicks).err.Some? ||
        (removed.err.None? && MatchesAt(s.script, removed.after.now, PasswordField) == [])
  {
    var removed := RemoveDevice(s);
    if removed.err.None? {
      var confirmed := ConfirmPassword(removed.after, password);
      assert AuthClientsResult(s, password) == confirmed;
      if MatchesAt(s.script, removed.after.now, PasswordField) != [] {
        RefusedAfter(s, removed.after, confirmed);
      }
    }
  }

  /** pageAuthHistoryInfo: acknowledge the history notice (wireapp.go:191-205). */
  function HistoryInfoResult(s: DriverState): (o: Outcome)
    ensures Ran(s, o, [Clicking])
    ensures var w := WaitForElementResult(s, HistoryConfirmButton, WaitTicks);
      (w.err.Some? ==> o.err.Some? && Appended(s, o.after) == []) &&
      (w.err.None? && o.err.Some? ==> Refused(s, o)) &&
      (Appended(s, o.after) != [] ==> w.err.None? && Appended(s, o.after) == [Click(MatchesAt(s.script, w.after.now, HistoryConfirmButton)[0])])
  {
    var w := WaitForElementResult(s, HistoryConfirmButton, WaitTicks);
    if w.err.Some? then
      Untouched(s, w.after, Wrap(w.err, "could not find history confirm button"), [Clicking]);
      Outcome(Wrap(w.err, "could not find history confirm button"), w.after)
    else
      var o := Act(w.after, Click(w.element.value), "could not click history confirm button");
      ActRuns(w.after, Click(w.element.value), "could not click history confirm button");
      RanAfter(s, w.after, o, [Clicking]);
      RefusedAfter(s, w.after, o);
      o
  }

  /** The views pagesAfterLogin tells apart by URL. */
  datatype View = DeviceLimit | HistoryDisclosure | AwaitingLogin | Home | Unrecognized

  function ViewOf(url: Url): View
  {
    if url == ClientsURL then DeviceLimit
    else if url == HistoryInfoURL then HistoryDisclosure
    else if url == LoginURL then AwaitingLogin
    else if url == RootURL then Home
    else Unrecognized
  }

  /** The driver calls made for the view at url (the cases of the switch at wireapp.go:124-147). */
  function Handle(s: DriverState, url: Url, password: string): (o: Outcome)
    ensures Follows(s, o.after)
    ensures ViewOf(url) == Home ==>
              o.after == s.(actions := s.actions + [ExecuteScript]) && (o.err.None? <==> !s.scriptFails)
    ensures ViewOf(url) == AwaitingLogin || ViewOf(url) == Unrecognized ==> o == Outcome(None, s)
  {
    match ViewOf(url)
    case DeviceLimit => AuthClientsResult(s, password)
    case HistoryDisclosure => HistoryInfoResult(s)
    case Home =>
      var (err, after) := s.Perform(ExecuteScript);
      Outcome(err, after)
    case _ => Outcome(None, s)
  }

  /** What one pass of the loop decides. */
  datatype Next = Continue | Done(err: Option<Error>) | Fail(failure: Error)

  /**
   * One pass of pagesAfterLogin after the view at url was handled with result
   * `handled` (wireapp.go:124-150).
   */
  function Step(url: Url, handled: Option<Error>): (n: Next)
    ensures ViewOf(url) == AwaitingLogin || ViewOf(url) == Unrecognized ==> n == Continue
    ensures n.Done? <==> ViewOf(url) == Home
    ensures n.Done? ==> (n.err.None? <==> handled.None?)
    ensures ViewOf(url) == HistoryDisclosure ==> (n == Continue <==> handled.None?)
    ensures ViewOf(url) == DeviceLimit ==>
              (n == Continue <==> handled.None? || Cause(handled.value).ChangedURL?)
    ensures n.Fail? ==> handled.Some? && Cause(n.failure) == Cause(handled.value) &&
                        n.failure.context != [] && n.failure.context[0] == "browsing " + url + " failed"
  {
    var view := ViewOf(url);
    if view == Home then Done(Wrap(handled, "could not remove warnings div"))
    else
      var err :=
        // the page moved on by itself while its prompt was handled: not an error
        if view == DeviceLimit && handled.Some? && Cause(handled.value).ChangedURL? then None
        else if view == DeviceLimit || view == HistoryDisclosure then handled
        // the login view continues at once; on an unknown view the wrapped nil is discarded
        else None;
      if err.Some? then Fail(WrapError(err.value, "browsing " + url + " failed")) else Continue
  }

  /** A location that keeps the loop polling without any driver action: the login view or an unknown one. */
  predicate Settling(script: seq<Snapshot>, t: nat)
  {
    LocationAt(script, t).Ok? &&
    (ViewOf(LocationAt(script, t).value) == AwaitingLogin || ViewOf(LocationAt(script, t).value) == Unrecognized)
  }

  /**
   * One pass of the loop of pagesAfterLogin (wireapp.go:107-150): sleep,
   * read the URL, handle its view and decide; with the state it leaves.
   */
  function LoopPass(s: DriverState, password: string): (r: (Next, DriverState))
    ensures Follows(s, r.1)
    ensures r.0.Continue? ==> s.now + 1 < |s.script| && s.now + 1 <= r.1.now
    ensures r.0.Done? ==>
              LocationAt(s.script, s.now + 1) == Ok(RootURL) &&
              r.1 == s.Sleep().Read(Location).(actions := s.actions + [ExecuteScript]) &&
              (r.0.err.None? <==> !s.scriptFails)
    ensures LocationAt(s.script, s.now + 1) == Ok(RootURL) ==> r.0.Done?
    ensures Settling(s.script, s.now + 1) ==> r == (Continue, s.Sleep().Read(Location))
    ensures LocationAt(s.script, s.now + 1).Err? ==>
              r == (Fail(WrapError(LocationAt(s.script, s.now + 1).error, "could not get current URL")), s.Sleep().Read(Location))
    ensures LocationAt(s.script, s.now + 1) == Ok(ClientsURL) ==>
              var h := AuthClientsResult(s.Sleep().Read(Location), password);
              r.1 == h.after && (r.0 == Continue <==> h.err.None? || Cause(h.err.value).ChangedURL?)
  {
    var (url, s1) := s.Sleep().CurrentURL();
    if url.Err? then (Fail(WrapError(url.error, "could not get current URL")), s1)
    else
      assert url == LocationAt(s.script, s.now + 1) && s1 == s.Sleep().Read(Location);
      assert url.value == ClientsURL ==> Handle(s1, url.value, password) == AuthClientsResult(s1, password);
      var h := Handle(s1, url.value, password);
      (Step(url.value, h.err), h.after)
  }

  /**
   * pagesAfterLogin (wireapp.go:103-152): pass after pass until one ends the
   * loop. The loop has no exit of its own; it ends here because the
   * session's script is finite.
   */
  function PagesAfterLoginResult(s: DriverState, password: string): (o: Outcome)
    ensures Follows(s, o.after)
    decreases s.Remaining()
  {
    var (next, after) := LoopPass(s, password);
    match next
    case Continue => PagesAfterLoginResult(after, password)
    case Done(err) => Outcome(err, after)
    case Fail(err) => Outcome(Some(err), after)
  }

  /** A pass on the login view or an unknown one changes nothing but the clock and polls again. */
  lemma PassWhileSettling(s: DriverState, password: string)
    requires Settling(s.script, s.now + 1)
    ensures PagesAfterLoginResult(s, password) == PagesAfterLoginResult(s.Sleep().Read(Location), password)
  {
    assert LoopPass(s, password) == (Continue, s.Sleep().Read(Location));
  }

  /** When the URL cannot be read, the loop ends at once with that error, wrapped; nothing is issued. */
  lemma PassWithoutURL(s: DriverState, password: string)
    requires LocationAt(s.script, s.now + 1).Err?
    ensures var o := PagesAfterLoginResult(s, password);
      o == Outcome(Some(WrapError(LocationAt(s.script, s.now + 1).error, "could not get current URL")), s.Sleep().Read(Location)) &&
      o.after.actions == s.actions
  {
    assert LoopPass(s, password).0.Fail?;
  }

  /** A pass on the home view runs the warnings script and ends the loop. */
  lemma PassAtHome(s: DriverState, password: string)
    requires LocationAt(s.script, s.now + 1) == Ok(RootURL)
    ensures var o := PagesAfterLoginResult(s, password);
      o.after == s.Sleep().Read(Location).(actions := s.actions + [ExecuteScript]) &&
      (o.err.None? <==> !s.scriptFails)
  {
    var pass := LoopPass(s, password);
    assert pass.0.Done?;
    assert PagesAfterLoginResult(s, password) == Outcome(pass.0.err, pass.1);
  }

  /** One unfolding of the page loop: it returns what the pass decides, or goes on from the pass's state. */
  lemma PassUnfolds(s: DriverState, password: string)
    ensures var pass := LoopPass(s, password);
      PagesAfterLoginResult(s, password) ==
        match pass.0
        case Continue => PagesAfterLoginResult(pass.1, password)
        case Done(err) => Outcome(err, pass.1)
        case Fail(err) => Outcome(Some(err), pass.1)
  {
  }

  /** pagesAfterLogin returns nil only after the warnings script ran on the home view. */
  lemma {:induction false} PagesSucceedOnlyAtHome(s: DriverState, password: string)
    ensures var o := PagesAfterLoginResult(s, password);
      o.err.None? ==> Appended(s, o.after) != [] && Appended(s, o.after)[|Appended(s, o.after)| - 1] == ExecuteScript &&
                      !s.scriptFails
    decreases s.Remaining()
  {
    var pass := LoopPass(s, password);
    var after := pass.1;
    PassUnfolds(s, password);
    if pass.0.Continue? {
      var o := PagesAfterLoginResult(after, password);
      PagesSucceedOnlyAtHome(after, password);
      if o.err.None? {
        AppendedSplit(s, after, o.after);
        var a, b := Appended(s, after), Appended(after, o.after);
        assert (a + b)[|a + b| - 1] == b[|b| - 1];
      }
    } else if pass.0.Done? {
      assert after.actions == s.actions + [ExecuteScript];
      assert Appended(s, after) == [ExecuteScript];
    }
  }

  /**
   * From the login view (or an unknown one) straight to the home view: the
   * loop keeps polling without touching the page, then runs the warnings
   * script once and ends, with an error only if that script fails.
   */
  lemma {:induction false} PagesReachHomeDirectly(s: DriverState, password: string, k: nat)
    requires SettlesHome(s.script, s.now, k)
    ensures var o := PagesAfterLoginResult(s, password);
      o.after.actions == s.actions + [ExecuteScript] && (o.err.None? <==> !s.scriptFails) &&
      o.after.now == s.now + k + 1
    decreases k
  {
    if k > 0 {
      var after := SettleOnce(s, password, k);
      PagesReachHomeDirectly(after, password, k - 1);
    } else {
      PassAtHome(s, password);
    }
  }

  /** The first of k settling passes: the loop goes on from the next poll, with one settling pass fewer ahead. */
  lemma SettleOnce(s: DriverState, password: string, k: nat) returns (after: DriverState)
    requires k > 0 && SettlesHome(s.script, s.now, k)
    ensures PagesAfterLoginResult(s, password) == PagesAfterLoginResult(after, password)
    ensures after.script == s.script && after.now == s.now + 1 &&
            after.actions == s.actions && after.scriptFails == s.scriptFails
    ensures SettlesHome(after.script, after.now, k - 1)
  {
    SettlesLater(s.script, s.now, k);
    PassWhileSettling(s, password);
    after := s.Sleep().Read(Location);
  }

  /** Settling for k polls after t is settling at t + 1, then for k - 1 polls after it. */
  lemma SettlesLater(script: seq<Snapshot>, t: nat, k: nat)
    requires k > 0 && SettlesHome(script, t, k)
    ensures Settling(script, t + 1) && SettlesHome(script, t + 1, k - 1)
  {
  }

  /**
   * On the device-limit view, a ChangedURLError from pageAuthClients is
   * swallowed: nothing was clicked and the loop polls again.
   */
  lemma ChangedURLOnDeviceLimitIsRecovered(s: DriverState, password: string)
    requires LocationAt(s.script, s.now + 1) == Ok(ClientsURL)
    requires var h := AuthClientsResult(s.Sleep().Read(Location), password);
      h.err.Some? && Cause(h.err.value).ChangedURL?
    ensures var h := AuthClientsResult(s.Sleep().Read(Location), password);
      Appended(s, h.after) == [] &&
      PagesAfterLoginResult(s, password) == PagesAfterLoginResult(h.after, password)
  {
    var s1 := s.Sleep().Read(Location);
    AuthClientsRunsPlan(s1, password);
    var h := AuthClientsResult(s1, password);
    assert Appended(s1, h.after) == [];
    var (next, after) := LoopPass(s, password);
    assert next == Continue && after == h.after;
  }

  /**
   * A pass on the device-limit view whose handler succeeds hands the loop on
   * from the handler's state; a failure other than a URL change ends the
   * loop, wrapped with the browsed URL.
   */
  lemma PassThroughClients(s: DriverState, password: string)
    requires LocationAt(s.script, s.now + 1) == Ok(ClientsURL)
    ensures var h := AuthClientsResult(s.Sleep().Read(Location), password);
      (h.err.None? ==> PagesAfterLoginResult(s, password) == PagesAfterLoginResult(h.after, password)) &&
      (h.err.Some? && !Cause(h.err.value).ChangedURL? ==>
         PagesAfterLoginResult(s, password) ==
           Outcome(Some(WrapError(h.err.value, "browsing " + ClientsURL + " failed")), h.after))
  {
    var s0 := s.Sleep();
    assert s0.script == s.script && s0.now == s.now + 1;
    assert s0.CurrentURL().0 == Ok(ClientsURL);
    var s1 := s0.Read(Location);
    var h := AuthClientsResult(s1, password);
    assert LoopPass(s, password) == (Step(ClientsURL, h.err), h.after);
    PassUnfolds(s, password);
  }

  /**
   * A pass on the history view hands the loop on from the handler's state
   * exactly when the handler succeeds; its failure, a URL change included,
   * ends the loop, wrapped with the browsed URL.
   */
  lemma PassThroughHistory(s: DriverState, password: string)
    requires LocationAt(s.script, s.now + 1) == Ok(HistoryInfoURL)
    ensures var h := HistoryInfoResult(s.Sleep().Read(Location));
      (h.err.None? ==> PagesAfterLoginResult(s, password) == PagesAfterLoginResult(h.after, password)) &&
      (h.err.Some? ==>
         PagesAfterLoginResult(s, password) ==
           Outcome(Some(WrapError(h.err.value, "browsing " + HistoryInfoURL + " failed")), h.after))
  {
    var s0 := s.Sleep();
    assert s0.script == s.script && s0.now == s.now + 1;
    assert s0.CurrentURL().0 == Ok(HistoryInfoURL);
    var s1 := s0.Read(Location);
    var h := HistoryInfoResult(s1);
    assert ViewOf(HistoryInfoURL) == HistoryDisclosure;
    assert LoopPass(s, password) == (Step(HistoryInfoURL, h.err), h.after);
    PassUnfolds(s, password);
  }

  /** From s1 to s2 the session issued exactly the gestures of plan, all of them and in order. */
  predicate Completes(s1: DriverState, s2: DriverState, plan: seq<Gesture>)
  {
    Follows(s1, s2) && |Appended(s1, s2)| == |plan| && Follow(Appended(s1, s2), plan)
  }

  /** A run of a plan that succeeded issued the whole plan, even counted from a state before some reads. */
  lemma RanCompletes(s: DriverState, x: DriverState, o: Outcome, plan: seq<Gesture>)
    requires Follows(s, x) && x.actions == s.actions && Ran(x, o, plan) && o.err.None?
    ensures Completes(s, o.after, plan)
  {
    RanAfter(s, x, o, plan);
  }

  /** The loop's outcome o completed the plan from s and succeeded exactly when the warnings script ran. */
  predicate EndsAtHome(s: DriverState, o: Outcome, plan: seq<Gesture>)
  {
    Completes(s, o.after, plan) && (o.err.None? <==> !s.scriptFails)
  }

  /** Two complete runs in turn are a complete run of the two plans. */
  lemma CompletesThen(s: DriverState, x: DriverState, y: DriverState, p1: seq<Gesture>, p2: seq<Gesture>)
    requires Completes(s, x, p1) && Completes(x, y, p2)
    ensures Completes(s, y, p1 + p2)
  {
    AppendedSplit(s, x, y);
    var a1 := Appended(s, x);
    var a2 := Appended(x, y);
    forall j | |a1| <= j < |a1 + a2|
      ensures GestureOf((a1 + a2)[j]) == (p1 + p2)[j]
    {
      assert (a1 + a2)[j] == a2[j - |a1|] && (p1 + p2)[j] == p2[j - |a1|];
    }
  }

  /** The home pass issues the warnings script and nothing else. */
  lemma HomeCompletes(s: DriverState, password: string)
    requires LocationAt(s.script, s.now + 1) == Ok(RootURL)
    ensures var o := PagesAfterLoginResult(s, password);
      EndsAtHome(s, o, [Scripting])
  {
    PassAtHome(s, password);
    var o := PagesAfterLoginResult(s, password);
    assert Appended(s, o.after) == [ExecuteScript];
  }

  /** A complete run of the plan from s to x after which the loop goes on from x as it would from s. */
  predicate HandsOn(s: DriverState, x: DriverState, password: string, plan: seq<Gesture>)
  {
    Completes(s, x, plan) && PagesAfterLoginResult(s, password) == PagesAfterLoginResult(x, password)
  }

  /** A history pass whose handler succeeds issued its one click and hands the loop on. */
  lemma HistoryThenOn(s: DriverState, password: string)
    requires LocationAt(s.script, s.now + 1) == Ok(HistoryInfoURL)
    requires HistoryInfoResult(s.Sleep().Read(Location)).err.None?
    ensures HandsOn(s, HistoryInfoResult(s.Sleep().Read(Location)).after, password, [Clicking])
  {
    var s1 := s.Sleep().Read(Location);
    RanCompletes(s, s1, HistoryInfoResult(s1), [Clicking]);
    PassThroughHistory(s, password);
  }

  /**
   * The history prompt, then the home view: one click acknowledges the
   * notice, the warnings script runs, and the loop ends, succeeding exactly
   * when the script does.
   */
  lemma HistoryThenHome(s: DriverState, password: string)
    requires AcknowledgesThenHome(s)
    ensures var o := PagesAfterLoginResult(s, password);
      EndsAtHome(s, o, [Clicking, Scripting])
  {
    var x := HistoryHandsOn(s, password);
    ClickThenHome(s, x, password);
  }

  /** A loop handed on after one click, into the home view: the click and the warnings script. */
  lemma ClickThenHome(s: DriverState, x: DriverState, password: string)
    requires HandsOn(s, x, password, [Clicking]) && LocationAt(s.script, x.now + 1) == Ok(RootURL)
    ensures var o := PagesAfterLoginResult(s, password);
      EndsAtHome(s, o, [Clicking, Scripting])
  {
    OnThenHome(s, x, password, [Clicking]);
    assert [Clicking] + [Scripting] == [Clicking, Scripting];
  }

  /** The history pass ahead of the home view hands the loop on after its one click. */
  lemma HistoryHandsOn(s: DriverState, password: string) returns (x: DriverState)
    requires AcknowledgesThenHome(s)
    ensures HandsOn(s, x, password, [Clicking]) && LocationAt(s.script, x.now + 1) == Ok(RootURL)
  {
    HistoryThenOn(s, password);
    x := HistoryInfoResult(s.Sleep().Read(Location)).after;
  }

  /** A loop handed on after a complete run of a plan, into the home view: the plan and the warnings script. */
  lemma OnThenHome(s: DriverState, x: DriverState, password: string, plan: seq<Gesture>)
    requires HandsOn(s, x, password, plan) && LocationAt(s.script, x.now + 1) == Ok(RootURL)
    ensures var o := PagesAfterLoginResult(s, password);
      EndsAtHome(s, o, plan + [Scripting])
  {
    assert x.script == s.script && x.scriptFails == s.scriptFails;
    HomeCompletes(x, password);
    CompletesThen(s, x, PagesAfterLoginResult(x, password).after, plan, [Scripting]);
  }

  /** The next poll shows the history prompt, its handler succeeds, and the poll after it shows the home view. */
  predicate AcknowledgesThenHome(s: DriverState)
  {
    LocationAt(s.script, s.now + 1) == Ok(HistoryInfoURL) &&
    var h := HistoryInfoResult(s.Sleep().Read(Location));
    h.err.None? && LocationAt(s.script, h.after.now + 1) == Ok(RootURL)
  }

  /** A device-limit pass whose handler succeeds issued the whole handler plan and hands the loop on. */
  lemma ClientsThenOn(s: DriverState, password: string)
    requires LocationAt(s.script, s.now + 1) == Ok(ClientsURL)
    requires AuthClientsResult(s.Sleep().Read(Location), password).err.None?
    ensures HandsOn(s, AuthClientsResult(s.Sleep().Read(Location), password).after, password, AuthClientsPlan(password))
  {
    var s1 := s.Sleep().Read(Location);
    AuthClientsRunsPlan(s1, password);
    RanCompletes(s, s1, AuthClientsResult(s1, password), AuthClientsPlan(password));
    PassThroughClients(s, password);
  }

  /**
   * Both prompts, then the home view: the device-limit pass removes a device,
   * the history pass acknowledges the notice, and the home pass runs the
   * warnings script. Those six actions are all the loop issues, and it
   * succeeds exactly when the script does.
   */
  lemma BothPromptsThenHome(s: DriverState, password: string)
    requires LocationAt(s.script, s.now + 1) == Ok(ClientsURL)
    requires var h1 := AuthClientsResult(s.Sleep().Read(Location), password);
      h1.err.None? && AcknowledgesThenHome(h1.after)
    ensures var o := PagesAfterLoginResult(s, password);
      EndsAtHome(s, o, AuthClientsPlan(password) + [Clicking, Scripting])
  {
    var h1 := AuthClientsResult(s.Sleep().Read(Location), password);
    HistoryThenHome(h1.after, password);
    ClientsThenOn(s, password);
    OnThenPlan(s, h1.after, password, AuthClientsPlan(password), [Clicking, Scripting]);
  }

  /** A loop handed on after a complete run of one plan, which then completes a second plan. */
  lemma OnThenPlan(s: DriverState, x: DriverState, password: string, p1: seq<Gesture>, p2: seq<Gesture>)
    requires HandsOn(s, x, password, p1)
    requires var o := PagesAfterLoginResult(x, password);
      EndsAtHome(x, o, p2)
    ensures var o := PagesAfterLoginResult(s, password);
      EndsAtHome(s, o, p1 + p2)
  {
    assert x.scriptFails == s.scriptFails;
    CompletesThen(s, x, PagesAfterLoginResult(x, password).after, p1, p2);
  }

  // ---------------------------------------------------------------------------
  // NewWireApp (wireapp.go:23-48)
  // ---------------------------------------------------------------------------

  function NewWireAppResult(s: DriverState, username: string, password: string): (o: Outcome)
    ensures username == "" || password == "" ==> o == Outcome(Some(CredentialsError), s)
    ensures Follows(s, o.after)
  {
    if username == "" || password == "" then Outcome(Some(CredentialsError), s)
    else
      var l := LoginResult(s, username, password);
      LoginRunsPlan(s, username, password);
      if l.err.Some? then Outcome(Wrap(l.err, "login error"), l.after)
      else
        var b := PagesAfterLoginResult(l.after, password);
        if b.err.Some? then Outcome(Wrap(b.err, "browsing error"), b.after)
        else Outcome(None, b.after)
  }

  /**
   * With both credentials set, the first driver call is the Get of the login
   * page; a session is ready only after the whole login ran and the page loop
   * ended on the home view.
   */
  lemma NewWireAppLogsInFirst(s: DriverState, username: string, password: string)
    requires username != "" && password != ""
    ensures var o := NewWireAppResult(s, username, password);
      Appended(s, o.after) != [] && Appended(s, o.after)[0] == Get(LoginURL) &&
      (o.err.None? ==>
         |Appended(s, o.after)| > 6 && Follow(Appended(s, o.after)[..6], LoginPlan(username, password)) &&
         Appended(s, o.after)[|Appended(s, o.after)| - 1] == ExecuteScript)
  {
    var l := LoginResult(s, username, password);
    LoginRunsPlan(s, username, password);
    var la := Appended(s, l.after);
    if l.err.None? {
      var b := PagesAfterLoginResult(l.after, password);
      assert NewWireAppResult(s, username, password) == Outcome(Wrap(b.err, "browsing error"), b.after);
      PagesSucceedOnlyAtHome(l.after, password);
      AppendedSplit(s, l.after, b.after);
      assert |la| == |LoginPlan(username, password)| == 6;
      assert (la + Appended(l.after, b.after))[..6] == la;
    } else {
      assert NewWireAppResult(s, username, password).after == l.after;
    }
  }

  /**
   * With both credentials set, NewWireApp fails exactly when login fails (the
   * error then carries "login error" and nothing follows the login) or, after
   * a login that succeeded, when the page loop fails.
   */
  lemma NewWireAppFailsOnlyForACause(s: DriverState, username: string, password: string)
    requires username != "" && password != ""
    ensures var o := NewWireAppResult(s, username, password);
      var l := LoginResult(s, username, password);
      (l.err.Some? ==> o.err.Some? && o.err.value.context == ["login error"] + l.err.value.context && o.after == l.after) &&
      (l.err.None? ==> o.after == PagesAfterLoginResult(l.after, password).after &&
                       (o.err.None? <==> PagesAfterLoginResult(l.after, password).err.None?))
  {
  }

  /**
   * A login that succeeds, any number of polls on the login view (or an
   * unknown one), then the home view: NewWireApp issues the whole login plan
   * and the warnings script, nothing else, and succeeds exactly when the
   * script does.
   */
  lemma NewWireAppReachesHome(s: DriverState, username: string, password: string, k: nat)
    requires username != "" && password != ""
    requires var l := LoginResult(s, username, password);
      l.err.None? && SettlesHome(s.script, l.after.now, k)
    ensures var o := NewWireAppResult(s, username, password);
      EndsAtHome(s, o, LoginPlan(username, password) + [Scripting])
  {
    var l := LoginResult(s, username, password);
    LoginCompletes(s, username, password);
    SettleThenHomeAfter(s, l.after, password, k, LoginPlan(username, password));
    NewWireAppFailsOnlyForACause(s, username, password);
  }

  /** After time t the page settles for k polls, then shows the home view. */
  predicate SettlesHome(script: seq<Snapshot>, t: nat, k: nat)
  {
    (forall u :: t < u <= t + k ==> Settling(script, u)) && LocationAt(script, t + k + 1) == Ok(RootURL)
  }

  /** A complete run of a plan, then settling polls and the home view: the plan and the warnings script. */
  lemma SettleThenHomeAfter(s: DriverState, x: DriverState, password: string, k: nat, plan: seq<Gesture>)
    requires Completes(s, x, plan) && SettlesHome(s.script, x.now, k)
    ensures var o := PagesAfterLoginResult(x, password);
      EndsAtHome(s, o, plan + [Scripting])
  {
    assert x.script == s.script && x.scriptFails == s.scriptFails;
    SettleThenHome(x, password, k);
    CompletesThen(s, x, PagesAfterLoginResult(x, password).after, plan, [Scripting]);
  }

  /** A login that succeeded issued its whole plan. */
  lemma LoginCompletes(s: DriverState, username: string, password: string)
    requires LoginResult(s, username, password).err.None?
    ensures Completes(s, LoginResult(s, username, password).after, LoginPlan(username, password))
  {
    LoginRunsPlan(s, username, password);
    RanCompletes(s, s, LoginResult(s, username, password), LoginPlan(username, password));
  }

  /** Settling polls, then the home view: the loop issues the warnings script and nothing else. */
  lemma SettleThenHome(s: DriverState, password: string, k: nat)
    requires SettlesHome(s.script, s.now, k)
    ensures var o := PagesAfterLoginResult(s, password);
      EndsAtHome(s, o, [Scripting])
  {
    PagesReachHomeDirectly(s, password, k);
    var o := PagesAfterLoginResult(s, password);
    assert Appended(s, o.after) == [ExecuteScript];
  }

  // ---------------------------------------------------------------------------
  // Conversations (wireapp.go:207-370)
  // ---------------------------------------------------------------------------

  /** What GetTopic returns, and the driver state it leaves. */
  datatype Topic = Topic(name: string, err: Option<Error>, after: DriverState)

  /** The topic the page shows at time t for conversation uuid: the topic attribute of its first div. */
  function TopicAt(script: seq<Snapshot>, t: nat, uuid: string): Option<string>
  {
    var divs := MatchesAt(script, t, ConversationDiv(uuid));
    if divs != [] && TopicAttribute in divs[0].attributes then Some(divs[0].attributes[TopicAttribute]) else None
  }

  /**
   * Conversation.GetTopic (wireapp.go:213-243). It only reads the page. On
   * the home view it yields the topic the page shows; on any other view the
   * wrapped error is nil, so it yields an empty topic and no error.
   */
  function GetTopicResult(s: DriverState, uuid: string): (t: Topic)
    ensures Follows(s, t.after) && t.after.actions == s.actions && t.after.now == s.now
    ensures LocationAt(s.script, s.now).Err? ==> t.err.Some? && t.name == ""
    ensures LocationAt(s.script, s.now).Ok? && LocationAt(s.script, s.now).value != RootURL ==>
              t == Topic("", None, s.Read(Location))
    ensures LocationAt(s.script, s.now) == Ok(RootURL) ==>
              (t.err.None? <==> TopicAt(s.script, s.now, uuid).Some?) &&
              (t.err.None? ==> t.name == TopicAt(s.script, s.now, uuid).value) &&
              (t.err.Some? ==> t.name == "")
  {
    var (url, s1) := s.CurrentURL();
    if url.Err? then Topic("", Wrap(Some(url.error), "could not get current URL"), s1)
    else if url.value != RootURL then Topic("", Wrap(None, "Unexpected URL: '" + url.value + "'"), s1)
    else
      var (div, s2) := s1.FindElement(ConversationDiv(uuid));
      if div.Err? then Topic("", Wrap(Some(div.error), "could not find div for conversation"), s2)
      else
        var (name, s3) := s2.GetAttribute(div.value, TopicAttribute);
        if name.Err? then Topic("", Wrap(Some(name.error), "could not get topic atrribute from conversation div"), s3)
        else Topic(name.value, None, s3)
  }

  /** What ListConversations returns (the uuids of the conversations), and the driver state it leaves. */
  datatype Listing = Listing(uuids: seq<string>, err: Option<Error>, after: DriverState)

  /**
   * The loop of ListConversations (wireapp.go:327-337): the uuid attribute of
   * each element in order, stopping at the first element without one.
   */
  function CollectUuids(s: DriverState, els: seq<Element>): (l: Listing)
    ensures Follows(s, l.after) && l.after.actions == s.actions && l.after.now == s.now
    decreases |els|
  {
    if els == [] then Listing([], None, s)
    else
      var (uuid, s1) := s.GetAttribute(els[0], UidAttribute);
      if uuid.Err? then Listing([], Wrap(Some(uuid.error), "could not get uuid attribute of conversation"), s1)
      else
        var rest := CollectUuids(s1, els[1..]);
        Listing([uuid.value] + rest.uuids, rest.err, rest.after)
  }

  /**
   * The loop collects the uuid attribute of each cell in order, and stops
   * with an error at the first cell that has none.
   */
  lemma {:induction false} CollectsUidAttributes(s: DriverState, els: seq<Element>)
    ensures var l := CollectUuids(s, els);
      |l.uuids| <= |els| &&
      (forall i :: 0 <= i < |l.uuids| ==>
         UidAttribute in els[i].attributes && l.uuids[i] == els[i].attributes[UidAttribute]) &&
      (l.err.None? <==> |l.uuids| == |els|) &&
      (l.err.Some? ==> UidAttribute !in els[|l.uuids|].attributes)
    decreases |els|
  {
    if els != [] {
      var (uuid, s1) := s.GetAttribute(els[0], UidAttribute);
      if uuid.Ok? {
        CollectsUidAttributes(s1, els[1..]);
        var rest := CollectUuids(s1, els[1..]);
        var l := CollectUuids(s, els);
        assert l.uuids == [uuid.value] + rest.uuids;
        forall i | 1 <= i < |l.uuids|
          ensures UidAttribute in els[i].attributes && l.uuids[i] == els[i].attributes[UidAttribute]
        {
          assert l.uuids[i] == rest.uuids[i - 1] && els[i] == els[1..][i - 1];
        }
        if rest.err.Some? {
          assert els[|l.uuids|] == els[1..][|rest.uuids|];
        }
      }
    }
  }

  /** One unfolding of CollectUuids, for the loop that computes it. */
  lemma CollectUuidsStep(s: DriverState, els: seq<Element>)
    requires els != []
    ensures var (uuid, s1) := s.GetAttribute(els[0], UidAttribute);
      CollectUuids(s, els) ==
        if uuid.Err? then Listing([], Wrap(Some(uuid.error), "could not get uuid attribute of conversation"), s1)
        else var rest := CollectUuids(s1, els[1..]); Listing([uuid.value] + rest.uuids, rest.err, rest.after)
  {
  }

  /** One step of CollectUuids, seen after the uuids collected so far. */
  lemma CollectUuidsNext(s: DriverState, els: seq<Element>, done: seq<string>)
    requires els != []
    ensures var (uuid, s1) := s.GetAttribute(els[0], UidAttribute);
      var l := CollectUuids(s, els);
      (uuid.Err? ==>
         Listing(done + l.uuids, l.err, l.after) ==
           Listing(done, Wrap(Some(uuid.error), "could not get uuid attribute of conversation"), s1)) &&
      (uuid.Ok? ==>
         var rest := CollectUuids(s1, els[1..]);
         Listing(done + l.uuids, l.err, l.after) == Listing((done + [uuid.value]) + rest.uuids, rest.err, rest.after))
  {
    CollectUuidsStep(s, els);
    var (uuid, s1) := s.GetAttribute(els[0], UidAttribute);
    if uuid.Err? {
      assert done + [] == done;
    } else {
      var rest := CollectUuids(s1, els[1..]);
      assert done + ([uuid.value] + rest.uuids) == (done + [uuid.value]) + rest.uuids;
    }
  }

  /**
   * The part of ListConversations after the URL check (wireapp.go:312-339):
   * wait for a conversation cell, then collect the uuid of every cell.
   */
  function ReadCells(s: DriverState): (l: Listing)
    ensures Follows(s, l.after) && l.after.actions == s.actions
    ensures l.err.None? ==> LocationAt(s.script, l.after.now) == LocationAt(s.script, s.now)
    ensures l.err.None? ==>
              var cells := MatchesAt(s.script, l.after.now, ConversationCells);
              |l.uuids| == |cells| > 0 &&
              forall i :: 0 <= i < |cells| ==>
                UidAttribute in cells[i].attributes && l.uuids[i] == cells[i].attributes[UidAttribute]
  {
    var w := WaitForElementResult(s, ConversationCells, WaitTicks);
    if w.err.Some? then Listing([], Wrap(w.err, "could not find any conversation"), w.after)
    else
      var (cells, s2) := w.after.FindElements(ConversationCells);
      match cells
      case Err(e) => Listing([], Wrap(Some(e), "could not list any conversations"), s2)
      case Ok(els) =>
        assert s2.script == s.script && s2.now == w.after.now && els == MatchesAt(s.script, s2.now, ConversationCells);
        CollectsUidAttributes(s2, els);
        CollectUuids(s2, els)
  }

  /** WireApp.ListConversations (wireapp.go:297-340): only on the home view. */
  function ListConversationsResult(s: DriverState): (l: Listing)
    ensures Follows(s, l.after) && l.after.actions == s.actions
    ensures LocationAt(s.script, s.now).Err? ==> l.err.Some? && l.uuids == []
    ensures LocationAt(s.script, s.now).Ok? && LocationAt(s.script, s.now).value != RootURL ==>
              l == Listing([], Some(Errorf("Invalid URL: " + LocationAt(s.script, s.now).value)), s.Read(Location))
    ensures LocationAt(s.script, s.now) == Ok(RootURL) ==> l == ReadCells(s.Read(Location))
    ensures l.err.None? ==> LocationAt(s.script, l.after.now) == Ok(RootURL)
  {
    var (url, s1) := s.CurrentURL();
    if url.Err? then Listing([], Wrap(Some(url.error), "could not get current URL"), s1)
    else if url.value != RootURL then Listing([], Some(Errorf("Invalid URL: " + url.value)), s1)
    else ReadCells(s1)
  }

  /**
   * On the home view with conversation cells already shown, ListConversations
   * reads them at once: it succeeds exactly when every cell carries a uuid,
   * and then lists those uuids in page order.
   */
  lemma ListsShownCells(s: DriverState)
    requires LocationAt(s.script, s.now) == Ok(RootURL)
    requires MatchesAt(s.script, s.now, ConversationCells) != []
    ensures var l := ListConversationsResult(s);
      var cells := MatchesAt(s.script, s.now, ConversationCells);
      l.after.now == s.now &&
      (l.err.None? <==> forall i :: 0 <= i < |cells| ==> UidAttribute in cells[i].attributes) &&
      (l.err.None? ==> |l.uuids| == |cells| &&
                       forall i :: 0 <= i < |cells| ==> l.uuids[i] == cells[i].attributes[UidAttribute])
  {
    var s1 := s.Read(Location);
    FoundAtFirstMatch(s1, ConversationCells, WaitTicks, 0);
    var w := WaitForElementResult(s1, ConversationCells, WaitTicks);
    var c := UrlStable(RootURL, ConversationCells);
    WaitStopsAtFirstEvent(s1, c, WaitTicks, None, 0);
    assert w.after.now == s.now;
    var (cells, s2) := w.after.FindElements(ConversationCells);
    CollectsUidAttributes(s2, cells.value);
  }

  /** What FindConversation returns (the uuid of the conversation found), and the driver state it leaves. */
  datatype Found = Found(conversation: Option<string>, err: Option<Error>, after: DriverState)

  /** The loop of FindConversation (wireapp.go:353-369) from position i on: the index of the first match. */
  function SearchTopics(s: DriverState, uuids: seq<string>, i: nat, target: string): (r: (Option<nat>, Option<Error>, DriverState))
    requires i <= |uuids|
    ensures Follows(s, r.2) && r.2.actions == s.actions && r.2.now == s.now
    ensures r.0.Some? ==> i <= r.0.value < |uuids| && r.1.None?
    decreases |uuids| - i
  {
    if i == |uuids| then (None, Wrap(None, "could not find conversation"), s)
    else
      var t := GetTopicResult(s, uuids[i]);
      if t.err.Some? then (None, Wrap(t.err, "could not get topic of conversation"), t.after)
      else if t.name == target then (Some(i), None, t.after)
      else SearchTopics(t.after, uuids, i + 1, target)
  }

  /**
   * On the home view, the search picks the first conversation whose shown
   * topic is the target. It fails on the first conversation before that whose
   * topic cannot be read, and finding nothing is not an error.
   */
  lemma SearchFindsFirst(s: DriverState, uuids: seq<string>, i: nat, target: string)
    requires i <= |uuids| && LocationAt(s.script, s.now) == Ok(RootURL)
    ensures var r := SearchTopics(s, uuids, i, target);
      (r.0.Some? ==> TopicAt(s.script, s.now, uuids[r.0.value]) == Some(target) &&
                     forall k :: i <= k < r.0.value ==>
                       TopicAt(s.script, s.now, uuids[k]).Some? && TopicAt(s.script, s.now, uuids[k]) != Some(target)) &&
      (r.0.None? && r.1.None? ==>
         forall k :: i <= k < |uuids| ==>
           TopicAt(s.script, s.now, uuids[k]).Some? && TopicAt(s.script, s.now, uuids[k]) != Some(target)) &&
      (r.1.Some? ==>
         exists k :: i <= k < |uuids| && TopicAt(s.script, s.now, uuids[k]).None? &&
                     forall j :: i <= j < k ==>
                       TopicAt(s.script, s.now, uuids[j]).Some? && TopicAt(s.script, s.now, uuids[j]) != Some(target))
  {
    SearchMatchesFirst(s, uuids, i, target);
    var k := SearchFailsAtUnreadable(s, uuids, i, target);
  }

  /** The match and the no-match halves of SearchFindsFirst, by induction on the search. */
  lemma {:induction false} SearchMatchesFirst(s: DriverState, uuids: seq<string>, i: nat, target: string)
    requires i <= |uuids| && LocationAt(s.script, s.now) == Ok(RootURL)
    ensures var r := SearchTopics(s, uuids, i, target);
      (r.0.Some? ==> TopicAt(s.script, s.now, uuids[r.0.value]) == Some(target) &&
                     forall k :: i <= k < r.0.value ==>
                       TopicAt(s.script, s.now, uuids[k]).Some? && TopicAt(s.script, s.now, uuids[k]) != Some(target)) &&
      (r.0.None? && r.1.None? ==>
         forall k :: i <= k < |uuids| ==>
           TopicAt(s.script, s.now, uuids[k]).Some? && TopicAt(s.script, s.now, uuids[k]) != Some(target))
    decreases |uuids| - i
  {
    if i < |uuids| {
      var t := GetTopicResult(s, uuids[i]);
      if t.err.None? && t.name != target {
        SearchMatchesFirst(t.after, uuids, i + 1, target);
      }
    }
  }

  /**
   * The search fails only at an unreadable topic, and only when every topic
   * before it was readable and not the target; k is that topic's position.
   */
  lemma {:induction false} SearchFailsAtUnreadable(s: DriverState, uuids: seq<string>, i: nat, target: string) returns (k: nat)
    requires i <= |uuids| && LocationAt(s.script, s.now) == Ok(RootURL)
    ensures SearchTopics(s, uuids, i, target).1.Some? ==>
              i <= k < |uuids| && TopicAt(s.script, s.now, uuids[k]).None? &&
              forall j :: i <= j < k ==>
                TopicAt(s.script, s.now, uuids[j]).Some? && TopicAt(s.script, s.now, uuids[j]) != Some(target)
    decreases |uuids| - i
  {
    k := i;
    if i < |uuids| {
      var t := GetTopicResult(s, uuids[i]);
      if t.err.None? && t.name != target {
        assert SearchTopics(s, uuids, i, target) == SearchTopics(t.after, uuids, i + 1, target);
        k := SearchFailsAtUnreadable(t.after, uuids, i + 1, target);
      }
    }
  }

  /**
   * WireApp.FindConversation (wireapp.go:342-370): list the conversations,
   * then return the first whose topic is the target; none found is (nil, nil).
   */
  function FindConversationResult(s: DriverState, target: string): (f: Found)
    ensures Follows(s, f.after) && f.after.actions == s.actions
    ensures f.conversation.Some? ==> f.err.None?
  {
    var l := ListConversationsResult(s);
    if l.err.Some? then Found(None, Wrap(l.err, "could not list all conversations"), l.after)
    else
      var r := SearchTopics(l.after, l.uuids, 0, target);
      Found(if r.0.Some? then Some(l.uuids[r.0.value]) else None, r.1, r.2)
  }

  /**
   * FindConversation returns the first listed conversation whose topic is the
   * target, and returns none without error only when no listed topic matches.
   * The cells are those shown at the poll where ListConversations' wait ended,
   * however many polls that took. This holds for a page that stays the same
   * during the search; in this model the page moves on only while the core
   * sleeps, and FindConversation does not sleep once the cells are listed.
   */
  lemma FindsFirstShown(s: DriverState, target: string)
    ensures var f := FindConversationResult(s, target);
      var l := ListConversationsResult(s);
      var cells := MatchesAt(s.script, l.after.now, ConversationCells);
      (f.conversation.Some? ==>
         exists k :: 0 <= k < |cells| && f.conversation.value == cells[k].attributes[UidAttribute] &&
                     TopicAt(s.script, l.after.now, f.conversation.value) == Some(target) &&
                     forall j :: 0 <= j < k ==> TopicAt(s.script, l.after.now, cells[j].attributes[UidAttribute]) != Some(target)) &&
      (f.conversation.None? && f.err.None? ==>
         forall k :: 0 <= k < |cells| ==> TopicAt(s.script, l.after.now, cells[k].attributes[UidAttribute]) != Some(target)) &&
      (f.err.Some? ==>
         l.err.Some? ||
         exists k :: 0 <= k < |cells| && TopicAt(s.script, l.after.now, cells[k].attributes[UidAttribute]).None? &&
                     forall j :: 0 <= j < k ==> TopicAt(s.script, l.after.now, cells[j].attributes[UidAttribute]) != Some(target))
  {
    var l := ListConversationsResult(s);
    if l.err.None? {
      var cells := MatchesAt(s.script, l.after.now, ConversationCells);
      SearchOverCells(l.after, l.uuids, cells, target);
      var r := SearchTopics(l.after, l.uuids, 0, target);
      if r.0.Some? {
        assert l.uuids[r.0.value] == cells[r.0.value].attributes[UidAttribute];
      }
    }
  }

  /** The uuids are the uid attributes of the cells, in order. */
  predicate UidsOf(uuids: seq<string>, cells: seq<Element>)
  {
    |uuids| == |cells| &&
    forall i :: 0 <= i < |cells| ==> UidAttribute in cells[i].attributes && uuids[i] == cells[i].attributes[UidAttribute]
  }

  /** SearchFindsFirst and SearchFailsAtUnreadable, restated over the cells whose uids were listed. */
  lemma SearchOverCells(x: DriverState, uuids: seq<string>, cells: seq<Element>, target: string)
    requires UidsOf(uuids, cells) && LocationAt(x.script, x.now) == Ok(RootURL)
    ensures var r := SearchTopics(x, uuids, 0, target);
      (r.0.Some? ==>
         TopicAt(x.script, x.now, cells[r.0.value].attributes[UidAttribute]) == Some(target) &&
         forall j :: 0 <= j < r.0.value ==> TopicAt(x.script, x.now, cells[j].attributes[UidAttribute]) != Some(target)) &&
      (r.0.None? && r.1.None? ==>
         forall k :: 0 <= k < |cells| ==> TopicAt(x.script, x.now, cells[k].attributes[UidAttribute]) != Some(target)) &&
      (r.1.Some? ==>
         exists k :: 0 <= k < |cells| && TopicAt(x.script, x.now, cells[k].attributes[UidAttribute]).None? &&
                     forall j :: 0 <= j < k ==> TopicAt(x.script, x.now, cells[j].attributes[UidAttribute]) != Some(target))
  {
    SearchFindsFirst(x, uuids, 0, target);
    var k := SearchFailsAtUnreadable(x, uuids, 0, target);
    if SearchTopics(x, uuids, 0, target).1.Some? {
      assert uuids[k] == cells[k].attributes[UidAttribute];
    }
  }

  // ---------------------------------------------------------------------------
  // SendMessage (wireapp.go:245-295)
  // ---------------------------------------------------------------------------

  function SendMessagePlan(message: string): seq<Gesture>
  {
    [Clicking] + ([Clicking] + ([Typing(message)] + [Typing(EnterKey)]))
  }

  /** Find the conversation's div and click it (wireapp.go:248-258). */
  function ClickConversation(s: DriverState, uuid: string): (o: Outcome)
    ensures Ran(s, o, [Clicking])
    ensures MatchesAt(s.script, s.now, ConversationDiv(uuid)) == [] ==> o.err.Some? && o.after.actions == s.actions
    ensures MatchesAt(s.script, s.now, ConversationDiv(uuid)) != [] && o.err.Some? ==> Refused(s, o)
    ensures Appended(s, o.after) != [] ==>
              MatchesAt(s.script, s.now, ConversationDiv(uuid)) != [] &&
              Appended(s, o.after) == [Click(MatchesAt(s.script, s.now, ConversationDiv(uuid))[0])]
  {
    var (div, s1) := s.FindElement(ConversationDiv(uuid));
    if div.Err? then
      Untouched(s, s1, Wrap(Some(div.error), "could not find topic attribute from conversation div"), [Clicking]);
      Outcome(Wrap(Some(div.error), "could not find topic attribute from conversation div"), s1)
    else
      var o := Act(s1, Click(div.value), "could not click conversation div");
      ActRuns(s1, Click(div.value), "could not click conversation div");
      RanAfter(s, s1, o, [Clicking]);
      RefusedAfter(s, s1, o);
      o
  }

  /** Wait for the message box, click it, type the message and Enter (wireapp.go:273-292). */
  function TypeMessage(s: DriverState, message: string): (o: Outcome)
    ensures Ran(s, o, [Clicking] + ([Typing(message)] + [Typing(EnterKey)]))
    ensures var w := WaitForElementResult(s, MessageTextarea, WaitTicks);
      (w.err.Some? ==> o.err.Some? && Appended(s, o.after) == []) &&
      (w.err.None? && o.err.Some? ==> Refused(s, o)) &&
      (Appended(s, o.after) != [] ==> w.err.None? && AllOn(Appended(s, o.after), MatchesAt(s.script, w.after.now, MessageTextarea)[0]))
  {
    var plan := [Clicking] + ([Typing(message)] + [Typing(EnterKey)]);
    var w := WaitForElementResult(s, MessageTextarea, WaitTicks);
    if w.err.Some? then
      Untouched(s, w.after, Wrap(w.err, "could not find message textarea"), plan);
      Outcome(Wrap(w.err, "could not find message textarea"), w.after)
    else
      var o := ClickTypeEnter(w.after, w.element.value, message, "could not click message textarea", "could not send message keystrokes");
      RanAfter(s, w.after, o, plan);
      RefusedAfter(s, w.after, o);
      o
  }

  /**
   * Conversation.SendMessage (wireapp.go:245-295): click the conversation,
   * wait until it is the active one, then type the message into the message
   * box. The element the wait's closure captures is not used afterwards.
   */
  function SendMessageResult(s: DriverState, uuid: string, message: string): (o: Outcome)
    ensures Follows(s, o.after)
  {
    var o1 := ClickConversation(s, uuid);
    if o1.err.Some? then o1 else
    var w := WaitResult(o1.after, Present(ActiveConversationDiv(uuid)), WaitTicks, None);
    if w.err.Some? then Outcome(Wrap(w.err, "could not switch conversation"), w.after)
    else TypeMessage(w.after, message)
  }

  /**
   * SendMessage clicks the conversation, then clicks the message box and
   * types the message and Enter into it, stopping at the first failure and
   * succeeding exactly when all four were carried out. When the page shows
   * no div for the conversation nothing is clicked.
   */
  lemma SendMessageRunsPlan(s: DriverState, uuid: string, message: string)
    ensures Ran(s, SendMessageResult(s, uuid, message), SendMessagePlan(message))
    ensures MatchesAt(s.script, s.now, ConversationDiv(uuid)) == [] ==>
              SendMessageResult(s, uuid, message).err.Some? &&
              SendMessageResult(s, uuid, message).after.actions == s.actions
  {
    var rest := [Clicking] + ([Typing(message)] + [Typing(EnterKey)]);
    var o1 := ClickConversation(s, uuid);
    if o1.err.Some? {
      RanStopped(s, o1, [Clicking], rest);
      return;
    }
    var w := WaitResult(o1.after, Present(ActiveConversationDiv(uuid)), WaitTicks, None);
    if w.err.Some? {
      FailedBetween(s, o1, [Clicking], Outcome(Wrap(w.err, "could not switch conversation"), w.after), rest);
      return;
    }
    var o2 := TypeMessage(w.after, message);
    RanAfter(o1.after, w.after, o2, rest);
    RanThen(s, o1, [Clicking], o2, rest);
  }

  /**
   * SendMessage stops at its first failing wait: when the clicked
   * conversation never becomes the active one, or the message box never
   * shows, it fails having clicked the conversation and nothing more.
   */
  lemma SendMessageStopsAtFailedWait(s: DriverState, uuid: string, message: string)
    ensures var o := SendMessageResult(s, uuid, message);
      var clicked := ClickConversation(s, uuid);
      var active := WaitResult(clicked.after, Present(ActiveConversationDiv(uuid)), WaitTicks, None);
      (clicked.err.None? && active.err.Some? ==> o.err.Some? && Appended(s, o.after) == Appended(s, clicked.after)) &&
      (clicked.err.None? && active.err.None? && WaitForElementResult(active.after, MessageTextarea, WaitTicks).err.Some? ==>
         o.err.Some? && Appended(s, o.after) == Appended(s, clicked.after))
  {
    var clicked := ClickConversation(s, uuid);
    if clicked.err.None? {
      var active := WaitResult(clicked.after, Present(ActiveConversationDiv(uuid)), WaitTicks, None);
      if active.err.None? {
        var typed := TypeMessage(active.after, message);
        assert SendMessageResult(s, uuid, message) == typed;
        AppendedSplit(s, clicked.after, active.after);
        AppendedSplit(s, active.after, typed.after);
      }
    }
  }

  /**
   * SendMessage fails only for a cause: the page shows no div for the
   * conversation, the conversation never became the active one, the message
   * box never showed, or the browser refused the last action it was given.
   * Otherwise it succeeds, having issued its whole plan.
   */
  lemma SendMessageFailsOnlyForACause(s: DriverState, uuid: string, message: string)
    ensures var o := SendMessageResult(s, uuid, message);
      var clicked := ClickConversation(s, uuid);
      var active := WaitResult(clicked.after, Present(ActiveConversationDiv(uuid)), WaitTicks, None);
      o.err.Some? ==>
        Refused(s, o) ||
        MatchesAt(s.script, s.now, ConversationDiv(uuid)) == [] ||
        (clicked.err.None? && active.err.Some?) ||
        (clicked.err.None? && active.err.None? && WaitForElementResult(active.after, MessageTextarea, WaitTicks).err.Some?)
  {
    var clicked := ClickConversation(s, uuid);
    if clicked.err.None? {
      var active := WaitResult(clicked.after, Present(ActiveConversationDiv(uuid)), WaitTicks, None);
      if active.err.None? {
        var typed := TypeMessage(active.after, message);
        assert SendMessageResult(s, uuid, message) == typed;
        if WaitForElementResult(active.after, MessageTextarea, WaitTicks).err.None? {
          RefusedAfter(s, active.after, typed);
        }
      }
    }
  }

  // ---------------------------------------------------------------------------
  // The objects
  // ---------------------------------------------------------------------------

  /** NewWireApp (wireapp.go:23-48): no object without both credentials; otherwise log in and walk to the home view. */
  method NewWireApp(webDriver: Driver, username: string, password: string) returns (wireapp: WireApp?, err: Option<Error>)
    modifies webDriver
    ensures wireapp == null <==> username == "" || password == ""
    ensures wireapp != null ==>
              fresh(wireapp) && wireapp.webDriver == webDriver &&
              wireapp.username == username && wireapp.password == password
    ensures Outcome(err, webDriver.State()) == NewWireAppResult(old(webDriver.State()), username, password)
  {
    if username == "" || password == "" {
      return null, Some(CredentialsError);
    }
    wireapp := new WireApp(webDriver, username, password);
    err := wireapp.Login();
    if err.Some? {
      return wireapp, Wrap(err, "login error");
    }
    err := wireapp.PagesAfterLogin();
    if err.Some? {
      return wireapp, Wrap(err, "browsing error");
    }
    return wireapp, None;
  }

  /** A logged-in session of the web client. */
  class WireApp {
    const webDriver: Driver
    const username: string
    const password: string

    constructor (webDriver: Driver, username: string, password: string)
      ensures this.webDriver == webDriver && this.username == username && this.password == password
    {
      this.webDriver := webDriver;
      this.username := username;
      this.password := password;
    }

    /** login (wireapp.go:50-101) */
    method Login() returns (err: Option<Error>)
      modifies webDriver
      ensures Outcome(err, webDriver.State()) == LoginResult(old(webDriver.State()), username, password)
    {
      ghost var s := webDriver.State();
      err := webDriver.Perform(Get(LoginURL));
      if err.Some? {
        return Wrap(err, "getting login url failed");
      }
      ghost var s0 := webDriver.State();
      assert Act(s, Get(LoginURL), "getting login url failed") == Outcome(None, s0);
      var element, werr := WaitForElementXPath(webDriver, EmailField, WaitTicks);
      if werr.Some? {
        return Wrap(werr, "could not find email field");
      }
      err := webDriver.Perform(Clear(element.value));
      if err.Some? {
        return Wrap(err, "could not clear email field");
      }
      err := webDriver.Perform(SendKeys(element.value, username));
      if err.Some? {
        return Wrap(err, "could not send email keystrokes");
      }
      ghost var s1 := webDriver.State();
      assert EnterEmail(s0, username) == Outcome(None, s1);
      var field := webDriver.FindElement(PasswordField);
      if field.Err? {
        return Wrap(Some(field.error), "could not find password field");
      }
      err := webDriver.Perform(Clear(field.value));
      if err.Some? {
        return Wrap(err, "could not clear password field");
      }
      err := webDriver.Perform(SendKeys(field.value, password));
      if err.Some? {
        return Wrap(err, "could not send password keystrokes");
      }
      ghost var s2 := webDriver.State();
      assert EnterPassword(s1, password) == Outcome(None, s2);
      var button := webDriver.FindElement(SubmitButton);
      if button.Err? {
        return Wrap(Some(button.error), "could not find submit button");
      }
      err := webDriver.Perform(Click(button.value));
      if err.Some? {
        return Wrap(err, "could not click on submit button");
      }
      return None;
    }

    /**
     * pagesAfterLogin (wireapp.go:103-152). The loop has no exit of its own;
     * it ends here because the session's script is finite.
     */
    method PagesAfterLogin() returns (err: Option<Error>)
      modifies webDriver
      ensures Outcome(err, webDriver.State()) == PagesAfterLoginResult(old(webDriver.State()), password)
    {
      ghost var goal := PagesAfterLoginResult(webDriver.State(), password);
      while true
        invariant PagesAfterLoginResult(webDriver.State(), password) == goal
        decreases webDriver.State().Remaining()
      {
        var next := Pass();
        match next
        case Continue =>
        case Done(e) => return e;
        case Fail(e) => return Some(e);
      }
    }

    /** One pass of the loop of pagesAfterLogin (wireapp.go:107-150). */
    method Pass() returns (next: Next)
      modifies webDriver
      ensures (next, webDriver.State()) == LoopPass(old(webDriver.State()), password)
    {
      webDriver.Sleep();
      var current := webDriver.CurrentURL();
      if current.Err? {
        return Fail(WrapError(current.error, "could not get current URL"));
      }
      var url := current.value;
      ghost var h := Handle(webDriver.State(), url, password);
      var err: Option<Error> := None;
      if url == ClientsURL {
        err := PageAuthClients();
        assert h == Outcome(err, webDriver.State());
        if err.Some? && Cause(err.value).ChangedURL? {
          // the page moved on by itself: poll again
          err := None;
        }
      } else if url == HistoryInfoURL {
        err := PageAuthHistoryInfo();
        assert h == Outcome(err, webDriver.State());
      } else if url == LoginURL {
        return Continue;
      } else if url == RootURL {
        err := webDriver.Perform(ExecuteScript);
        assert h == Outcome(err, webDriver.State());
        return Done(Wrap(err, "could not remove warnings div"));
      } else {
        // the source wraps the nil err here and discards the result
        assert h == Outcome(None, webDriver.State());
      }
      if err.Some? {
        return Fail(WrapError(err.value, "browsing " + url + " failed"));
      }
      return Continue;
    }

    /** pageAuthClients (wireapp.go:154-189) */
    method PageAuthClients() returns (err: Option<Error>)
      modifies webDriver
      ensures Outcome(err, webDriver.State()) == AuthClientsResult(old(webDriver.State()), password)
    {
      ghost var s := webDriver.State();
      var element, werr := WaitForElementXPath(webDriver, RemoveDeviceDiv, WaitTicks);
      if werr.Some? {
        return Wrap(werr, "could not find remove device div");
      }
      err := webDriver.Perform(Click(element.value));
      if err.Some? {
        return Wrap(err, "could not click remove device div");
      }
      ghost var s1 := webDriver.State();
      assert RemoveDevice(s) == Outcome(None, s1);
      var field := webDriver.FindElement(PasswordField);
      if field.Err? {
        return Wrap(Some(field.error), "could not find password field");
      }
      err := webDriver.Perform(Click(field.value));
      if err.Some? {
        return Wrap(err, "could not click password field");
      }
      err := webDriver.Perform(SendKeys(field.value, password));
      if err.Some? {
        return Wrap(err, "could not send password keystrokes");
      }
      err := webDriver.Perform(SendKeys(field.value, EnterKey));
      if err.Some? {
        return Wrap(err, "could not send enter keystroke");
      }
      return None;
    }

    /** pageAuthHistoryInfo (wireapp.go:191-205) */
    method PageAuthHistoryInfo() returns (err: Option<Error>)
      modifies webDriver
      ensures Outcome(err, webDriver.State()) == HistoryInfoResult(old(webDriver.State()))
    {
      var element, werr := WaitForElementXPath(webDriver, HistoryConfirmButton, WaitTicks);
      if werr.Some? {
        return Wrap(werr, "could not find history confirm button");
      }
      err := webDriver.Perform(Click(element.value));
      if err.Some? {
        return Wrap(err, "could not click history confirm button");
      }
      return None;
    }

    /** ListConversations (wireapp.go:297-340) */
    method ListConversations() returns (conversations: seq<Conversation>, err: Option<Error>)
      modifies webDriver
      ensures var l := ListConversationsResult(old(webDriver.State()));
        err == l.err && webDriver.State() == l.after && |conversations| == |l.uuids| &&
        forall i :: 0 <= i < |conversations| ==>
          conversations[i].uuid == l.uuids[i] && conversations[i].wireapp == this
    {
      var current := webDriver.CurrentURL();
      if current.Err? {
        return [], Wrap(Some(current.error), "could not get current URL");
      }
      if current.value != RootURL {
        return [], Some(Errorf("Invalid URL: " + current.value));
      }
      ghost var s1 := webDriver.State();
      var _, werr := WaitForElementXPath(webDriver, ConversationCells, WaitTicks);
      if werr.Some? {
        return [], Wrap(werr, "could not find any conversation");
      }
      var cells := webDriver.FindElements(ConversationCells);
      if cells.Err? {
        // the wait has just found a cell at this very time, so the lookup cannot fail
        assert false;
      }
      ghost var s2 := webDriver.State();
      assert ListConversationsResult(old(webDriver.State())) == ReadCells(s1) == CollectUuids(s2, cells.value);
      conversations, err := CollectConversations(cells.value);
    }

    /** The loop of ListConversations (wireapp.go:327-337): one conversation per element, in order. */
    method CollectConversations(elements: seq<Element>) returns (conversations: seq<Conversation>, err: Option<Error>)
      modifies webDriver
      ensures var l := CollectUuids(old(webDriver.State()), elements);
        err == l.err && webDriver.State() == l.after && |conversations| == |l.uuids| &&
        forall i :: 0 <= i < |conversations| ==>
          conversations[i].uuid == l.uuids[i] && conversations[i].wireapp == this
    {
      ghost var goal := CollectUuids(webDriver.State(), elements);
      ghost var uuids: seq<string> := [];
      conversations := [];
      var i := 0;
      assert elements[i..] == elements && [] + goal.uuids == goal.uuids;
      while i < |elements|
        invariant 0 <= i <= |elements| && |conversations| == |uuids| == i
        invariant forall j :: 0 <= j < i ==> conversations[j].uuid == uuids[j] && conversations[j].wireapp == this
        invariant var rest := CollectUuids(webDriver.State(), elements[i..]);
          goal == Listing(uuids + rest.uuids, rest.err, rest.after)
      {
        assert elements[i..][0] == elements[i] && elements[i..][1..] == elements[i + 1..];
        CollectUuidsNext(webDriver.State(), elements[i..], uuids);
        var uuid := webDriver.GetAttribute(elements[i], UidAttribute);
        if uuid.Err? {
          return conversations, Wrap(Some(uuid.error), "could not get uuid attribute of conversation");
        }
        var conversation := new Conversation(uuid.value, this);
        conversations := conversations + [conversation];
        uuids := uuids + [uuid.value];
        i := i + 1;
      }
      assert uuids + [] == uuids && elements[i..] == [];
      return conversations, None;
    }

    /** FindConversation (wireapp.go:342-370) */
    method FindConversation(targetTopic: string) returns (conversation: Conversation?, err: Option<Error>)
      modifies webDriver
      ensures var f := FindConversationResult(old(webDriver.State()), targetTopic);
        err == f.err && webDriver.State() == f.after &&
        (conversation == null <==> f.conversation.None?) &&
        (conversation != null ==> conversation.uuid == f.conversation.value && conversation.wireapp == this)
    {
      ghost var l := ListConversationsResult(webDriver.State());
      var conversations;
      conversations, err := ListConversations();
      if err.Some? {
        return null, Wrap(err, "could not list all conversations");
      }
      ghost var goal := SearchTopics(webDriver.State(), l.uuids, 0, targetTopic);
      var i := 0;
      while i < |conversations|
        invariant 0 <= i <= |conversations|
        invariant SearchTopics(webDriver.State(), l.uuids, i, targetTopic) == goal
      {
        var topic, terr := conversations[i].GetTopic();
        if terr.Some? {
          return null, Wrap(terr, "could not get topic of conversation");
        }
        if topic == targetTopic {
          return conversations[i], terr;
        }
        i := i + 1;
      }
      return null, Wrap(None, "could not find conversation");
    }
  }

  /** A conversation of a session, known by its uuid. */
  class Conversation {
    const uuid: string
    const wireapp: WireApp

    constructor (uuid: string, wireapp: WireApp)
      ensures this.uuid == uuid && this.wireapp == wireapp
    {
      this.uuid := uuid;
      this.wireapp := wireapp;
    }

    /** GetTopic (wireapp.go:213-243) */
    method GetTopic() returns (name: string, err: Option<Error>)
      modifies wireapp.webDriver
      ensures Topic(name, err, wireapp.webDriver.State()) == GetTopicResult(old(wireapp.webDriver.State()), uuid)
    {
      var webDriver := wireapp.webDriver;
      var current := webDriver.CurrentURL();
      if current.Err? {
        return "", Wrap(Some(current.error), "could not get current URL");
      }
      if current.value != RootURL {
        return "", Wrap(None, "Unexpected URL: '" + current.value + "'");
      }
      var div := webDriver.FindElement(ConversationDiv(uuid));
      if div.Err? {
        return "", Wrap(Some(div.error), "could not find div for conversation");
      }
      var topic := webDriver.GetAttribute(div.value, TopicAttribute);
      if topic.Err? {
        return "", Wrap(Some(topic.error), "could not get topic atrribute from conversation div");
      }
      return topic.value, None;
    }

    /** SendMessage (wireapp.go:245-295) */
    method SendMessage(message: string) returns (err: Option<Error>)
      modifies wireapp.webDriver
      ensures Outcome(err, wireapp.webDriver.State()) == SendMessageResult(old(wireapp.webDriver.State()), uuid, message)
    {
      var webDriver := wireapp.webDriver;
      ghost var s := webDriver.State();
      var div := webDriver.FindElement(ConversationDiv(uuid));
      if div.Err? {
        return Wrap(Some(div.error), "could not find topic attribute from conversation div");
      }
      err := webDriver.Perform(Click(div.value));
      if err.Some? {
        return Wrap(err, "could not click conversation div");
      }
      assert ClickConversation(s, uuid) == Outcome(None, webDriver.State());
      var captured;
      err, captured := WaitWithTimeout(webDriver, Present(ActiveConversationDiv(uuid)), WaitTicks, None);
      if err.Some? {
        return Wrap(err, "could not switch conversation");
      }
      var element, werr := WaitForElementXPath(webDriver, MessageTextarea, WaitTicks);
      if werr.Some? {
        return Wrap(werr, "could not find message textarea");
      }
      err := webDriver.Perform(Click(element.value));
      if err.Some? {
        return Wrap(err, "could not click message textarea");
      }
      err := webDriver.Perform(SendKeys(element.value, message));
      if err.Some? {
        return Wrap(err, "could not send message keystrokes");
      }
      err := webDriver.Perform(SendKeys(element.value, EnterKey));
      if err.Some? {
        return Wrap(err, "could not send enter keystroke");
      }
      return None;
    }
  }
}
