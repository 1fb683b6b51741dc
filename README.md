# wireapp_web_bot session core, in Dafny

This project models the session core of the `wireapp` Go package, which drives
the Wire web client through a Selenium WebDriver. The core has two parts:

- the element wait engine of `webdriver.go`: `waitForElementXPath` and its
  polling closure, plus the `ChangedURLError` type;
- the session operations of `wireapp.go`:
  - `NewWireApp`, `login` and the `pagesAfterLogin` page loop, with its
    handlers `pageAuthClients` and `pageAuthHistoryInfo`;
  - `ListConversations` and `FindConversation`;
  - `Conversation.GetTopic` and `Conversation.SendMessage`.

Files:

- `errors.dfy` (module `Errors`) holds Go error values as `github.com/pkg/errors`
  builds them. An error is a chain of context messages around one innermost cause.
  `Wrap` of nil is nil, and `errors.Cause` returns the innermost value.
- `browser.dfy` (module `Browser`) holds the browser driver.
  - The browser's own progress is a finite script of snapshots, one per poll
    interval. A snapshot holds the URL `CurrentURL` reports and the elements each
    locator matches.
  - A clock selects the snapshot on view. Only a sleep advances it.
  - Every driver call is logged: page-changing calls as actions, reads as
    lookups.
  - Which actions the browser refuses, and whether the warnings script fails,
    are fixed settings of the session.
- `webdriver.dfy` (module `WebDriver`) holds the wait engine: the two
  condition closures and selenium's `WaitWithTimeout` loop.
- `wireapp.dfy` (module `WireApp`) holds the session operations.

Each operation is modelled twice:
- as a function of the driver state, returning what the Go code returns and the
  state it leaves;
- as a method on the `WireApp` / `Conversation` objects (or on the `Driver`)
  that issues the same calls in the same order as the Go code. Its `ensures`
  ties it to that function.

The properties are lemmas about the functions.

Most page operations are stated as runs of a call plan.
- `LoginPlan` is: navigate to the login page; clear and type the user name;
  clear and type the password; click.
- An operation runs its plan when:
  - the actions it issued follow the plan, gesture by gesture;
  - no action follows one the browser refused;
  - it reports success exactly when the whole plan was issued and accepted.
- Each phase also fails only for a cause: a lookup or wait that found nothing,
  or a refusal of the last action it issued (`Refused`). So once its lookups
  succeed, a phase acts, and with every action accepted it succeeds.
- The `…FailsOnlyForACause` lemmas carry this to `login`, `pageAuthClients`
  and `SendMessage`.

The model follows the code as written:
- An unknown URL in `pagesAfterLogin` is not fatal. The `default` branch wraps a
  nil error and discards it, so the loop keeps polling.
- `GetTopic` away from the home view returns an empty topic and no error, since
  it wraps a nil error.
- `FindConversation` with no matching topic returns no conversation and no
  error, for the same reason.
- A URL change is forgiven only on the device-limit view. On the history view,
  `pagesAfterLogin` fails with it.
- `NewWireApp` returns the new object together with a login or browsing
  error.
- A wait takes the first element its locator matches, not "exactly one".

## Model

| member | source | states |
|---|---|---|
| Errors.Wrap | wireapp.go:222-225 | wrapping nil gives nil; wrapping an error keeps its cause and puts the message in front of its context |
| WebDriver.ChangedURLText | webdriver.go:31-33 | the text names the recorded URL and the new URL, each at a fixed position |
| WebDriver.ChangedURLError | webdriver.go:9-14 | the error's cause is of the ChangedURLError kind |
| WebDriver.ChangedURLMessage | webdriver.go:12-14 | a ChangedURLError prints as its own text |
| WebDriver.ConditionError | webdriver.go:24-35 | the closure reports an error exactly when the URL cannot be read or differs from the recorded one; the error names both URLs when both are known; the Present closure never reports one |
| WebDriver.ConditionResult | webdriver.go:24-39 | the closure succeeds exactly when it reports no error and the locator matches; then it captures the first match; a failed lookup leaves the captured element nil; an error leaves it unchanged after only the URL read |
| WebDriver.WaitResult | webdriver.go:41 | a wait without error ends at a poll where the condition reports no error and the locator matches, with the first match captured; it issues no action and takes at most `ticks` sleeps |
| WebDriver.WaitForElementResult | webdriver.go:16-43 | an unreadable URL fails the wait at once with nothing captured; success returns the first match at the final poll, where the URL is still the one first read; no action is issued |
| WebDriver.WaitStopsAtFirstEvent | webdriver.go:24-42 | the wait ends at the first poll that is not pending, with that poll's error or its first match, after exactly that many sleeps |
| WebDriver.WaitTimesOut | webdriver.go:41-42 | a condition pending at every poll ends in a timeout after the last poll |
| WebDriver.TimeoutOnlyWhenPending | webdriver.go:41-42 | a timeout is reported only if the condition was pending at every poll |
| WebDriver.ChangedURLBeforeFound | webdriver.go:31-35 | a URL change before the element appears is reported as a ChangedURLError naming both URLs, never as a timeout |
| WebDriver.FoundAtFirstMatch | webdriver.go:37-42 | with the URL unchanged, the element returned is the first match at the first poll where it exists |
| WebDriver.TimeoutMeansStableAndAbsent | webdriver.go:19-42 | a timeout means the URL stayed the recorded one and the element was absent at every poll |
| WebDriver.CheckCondition | webdriver.go:24-39 | the closure's calls give exactly ConditionResult |
| WebDriver.WaitWithTimeout | webdriver.go:41 | the polling loop gives exactly WaitResult |
| WebDriver.WaitForElementXPath | webdriver.go:16-43 | the method gives exactly WaitForElementResult |
| WireApp.Act | wireapp.go:52-55 | one guarded call appends its action; it fails exactly when the browser refuses it, with the driver's cause and the one context message |
| WireApp.ClearAndType | wireapp.go:63-71 | runs the plan clear, type, and both actions go to the one element; an error is the driver's refusal of the last action issued, so the clear is always issued, the typing follows an accepted clear, and with both accepted it succeeds |
| WireApp.TypeAndEnter | wireapp.go:178-186 | runs the plan type, Enter on one element; an error is the driver's refusal of the last action issued, so Enter follows accepted typing, and with both accepted it succeeds |
| WireApp.ClickTypeEnter | wireapp.go:173-186 | runs the plan click, type, Enter on one element; an error is the driver's refusal of the last action issued, so an accepted click leads to the typing and Enter, and with all three accepted it succeeds |
| WireApp.EnterEmail | wireapp.go:57-71 | runs the plan clear, type the user name; a failed wait for the email field fails with no action; after a successful wait an error is the refusal of the last action issued; every action goes to the first email field the wait found |
| WireApp.EnterPassword | wireapp.go:73-87 | runs the plan clear, type the password, on the first password field shown; no such field fails with no action; with one shown an error is the refusal of the last action issued |
| WireApp.Submit | wireapp.go:89-98 | runs the plan click; the click goes to the first submit button shown; no such button fails with no click; with one shown an error is the refusal of the click |
| WireApp.LoginRunsPlan | wireapp.go:50-101 | login runs the plan navigate, clear, type user name, clear, type password, click, and succeeds exactly when all six were issued and accepted; its first action is the Get of the login URL; LoginFailsOnlyForACause gives the causes of an error |
| WireApp.LoginStopsAtFailedLookup | wireapp.go:57-93 | a failed wait for the email field, a missing password field or a missing submit button fails login with the actions of the earlier steps and no more |
| WireApp.LoginResult | wireapp.go:50-101 | login as a function of the driver state: its result is a later state of the same session; what it issues and when it fails are in LoginRunsPlan, LoginStopsAtFailedLookup and LoginFailsOnlyForACause |
| WireApp.LoginFailsOnlyForACause | wireapp.go:50-101 | login fails only when the browser refused the last action issued, the email field never showed, or the password field or submit button was missing; with every lookup answered and every action accepted it succeeds |
| WireApp.RemoveDevice | wireapp.go:156-165 | runs the plan click; a failed wait, a ChangedURLError among them, fails with no action; after a successful wait an error is the refusal of the click; the only action is one click on the first remove-device control the wait found |
| WireApp.ConfirmPassword | wireapp.go:167-186 | runs the plan click, type the password, Enter, all on the first password field shown; no such field fails with no action; with one shown an error is the refusal of the last action issued |
| WireApp.AuthClientsRunsPlan | wireapp.go:154-189 | pageAuthClients runs the plan click, click, type the password, Enter, and succeeds exactly when all four were issued and accepted; a ChangedURLError means nothing was clicked; AuthClientsFailsOnlyForACause gives the causes of an error |
| WireApp.AuthClientsStopsAtFailedLookup | wireapp.go:156-171 | a failed wait for the remove-device control fails with no action; a missing password field fails with only the remove-device click |
| WireApp.AuthClientsResult | wireapp.go:154-189 | pageAuthClients as a function of the driver state: its result is a later state of the same session; what it issues and when it fails are in AuthClientsRunsPlan, AuthClientsStopsAtFailedLookup and AuthClientsFailsOnlyForACause |
| WireApp.AuthClientsFailsOnlyForACause | wireapp.go:154-189 | pageAuthClients fails only when the remove-device control never showed, the password field was missing, or the browser refused the last action issued |
| WireApp.HistoryInfoResult | wireapp.go:191-205 | pageAuthHistoryInfo runs the plan click; a failed wait fails with no action; after a successful wait an error is the refusal of the click; the only action is one click on the first confirm button the wait found |
| WireApp.Handle | wireapp.go:124-147 | on the home view the only action is the warnings script, which fails exactly when the browser refuses it; the login view and unknown views do nothing |
| WireApp.Step | wireapp.go:124-150 | the loop ends exactly on the home view; the login view and unknown views continue; the history view continues exactly when its handler succeeded; the device-limit view also continues on a ChangedURLError; any other failure is wrapped with the browsed URL |
| WireApp.LoopPass | wireapp.go:107-150 | a pass that continues leaves the clock advanced within the script; an unreadable URL ends the loop with that error wrapped as "could not get current URL"; the home view ends the loop after the warnings script; the login view and unknown views only poll; on the device-limit view the pass continues exactly when pageAuthClients succeeded or hit a URL change |
| WireApp.PagesAfterLoginResult | wireapp.go:103-152 | pagesAfterLogin as pass after pass of LoopPass, ending in a later state of the same session; its behaviour is stated by the Pass… and …ThenHome lemmas |
| WireApp.PassWithoutURL | wireapp.go:110-114 | when the URL cannot be read, the loop ends at once with that error wrapped as "could not get current URL", issuing nothing |
| WireApp.PassWhileSettling | wireapp.go:138-139 | a pass on the login view or an unknown view leaves the loop's result unchanged apart from the poll |
| WireApp.PassAtHome | wireapp.go:140-144 | a pass on the home view runs the warnings script and ends the loop, failing exactly when the script fails |
| WireApp.PagesSucceedOnlyAtHome | wireapp.go:103-152 | pagesAfterLogin returns nil only when its last action was the warnings script and the script did not fail |
| WireApp.PagesReachHomeDirectly | wireapp.go:107-144 | after any number of login or unknown views, the home view ends the loop with the warnings script as its only action |
| WireApp.PassThroughClients | wireapp.go:125-150 | a device-limit pass whose handler succeeds hands the loop on from the handler's state; a failure other than a URL change ends the loop, wrapped with the browsed URL |
| WireApp.PassThroughHistory | wireapp.go:136-150 | a history pass hands the loop on from the handler's state exactly when the handler succeeds; otherwise its failure ends the loop, wrapped with the browsed URL |
| WireApp.HistoryThenHome | wireapp.go:107-144 | the history prompt, then the home view: the loop issues one click and the warnings script, and succeeds exactly when the script does |
| WireApp.BothPromptsThenHome | wireapp.go:107-144 | the device-limit prompt, the history prompt, then the home view: the loop issues exactly the four device-removal actions, the confirm click and the warnings script, and succeeds exactly when the script does |
| WireApp.ChangedURLOnDeviceLimitIsRecovered | wireapp.go:125-135 | a ChangedURLError on the device-limit view clicks nothing and the loop goes on as from the new state |
| WireApp.NewWireAppResult | wireapp.go:27-30 | missing credentials give the configuration error and no driver call |
| WireApp.NewWireAppLogsInFirst | wireapp.go:24-48 | with credentials, the first action is the Get of the login page; success needs the six login actions, then a page loop ending with the warnings script |
| WireApp.NewWireAppFailsOnlyForACause | wireapp.go:37-47 | with credentials, NewWireApp fails exactly when login fails (then the error carries "login error" and nothing follows the login) or, after a successful login, when the page loop fails; the state left is the loop's |
| WireApp.NewWireAppReachesHome | wireapp.go:24-48 | a successful login followed by any number of login or unknown views and then the home view: NewWireApp issues exactly the six login actions and the warnings script, and succeeds exactly when the script does |
| WireApp.GetTopicResult | wireapp.go:213-243 | GetTopic only reads; away from the home view it returns an empty topic and nil; on the home view it succeeds exactly when the conversation's div shows a topic, and returns that topic |
| WireApp.CollectUuids | wireapp.go:327-337 | the uuid loop as a function: it only reads, at the same poll; CollectsUidAttributes states what it collects |
| WireApp.CollectsUidAttributes | wireapp.go:327-337 | the loop collects each cell's uid in order; it succeeds exactly when every cell has one; it stops at the first cell without one |
| WireApp.ReadCells | wireapp.go:312-339 | on success, one uuid per cell shown at the final poll, in page order, and at least one cell; the URL at that poll is the one the listing started on |
| WireApp.ListConversationsResult | wireapp.go:301-340 | an unreadable URL fails with nothing listed; away from the home view it fails with "Invalid URL" after one read; a successful listing ends on the home view; it never issues an action |
| WireApp.ListsShownCells | wireapp.go:297-340 | with cells already shown on the home view, the listing is immediate; it succeeds exactly when every cell has a uid, and then lists those uids in page order |
| WireApp.SearchTopics | wireapp.go:353-369 | a match found is a valid position, not before the start, and comes with no error; the search only reads |
| WireApp.SearchFindsFirst | wireapp.go:353-369 | the search returns the first conversation whose topic is the target; finding none without error means no topic matched; an error means the search reached a topic it could not read, every topic before it readable and not the target |
| WireApp.SearchFailsAtUnreadable | wireapp.go:353-369 | the search fails only at a topic it cannot read, and only when every topic before it was readable and not the target |
| WireApp.FindConversationResult | wireapp.go:342-370 | FindConversation only reads; a conversation found comes with no error |
| WireApp.FindsFirstShown | wireapp.go:342-370 | with the page unchanged during the search, the result is the first conversation cell, among those shown when the listing's wait ended, whose topic is the target; none without error means no such cell's topic matches; an error after a successful listing means a cell with an unreadable topic came before any cell with the target topic |
| WireApp.ClickConversation | wireapp.go:248-258 | runs the plan click, on the conversation's first div; without such a div it fails and clicks nothing; with one shown an error is the refusal of the click |
| WireApp.TypeMessage | wireapp.go:273-292 | runs the plan click, type the message, Enter; a failed wait for the message box fails with no action; after a successful wait an error is the refusal of the last action issued; every action goes to the first message box the wait found |
| WireApp.SendMessageResult | wireapp.go:245-295 | SendMessage as a function of the driver state: its result is a later state of the same session; what it issues and when it fails are in SendMessageRunsPlan, SendMessageStopsAtFailedWait and SendMessageFailsOnlyForACause |
| WireApp.SendMessageRunsPlan | wireapp.go:245-295 | SendMessage runs the plan click conversation, click message box, type message, Enter, and succeeds exactly when all four were issued and accepted; without a div for the conversation it fails and clicks nothing; SendMessageFailsOnlyForACause gives the causes of an error |
| WireApp.SendMessageStopsAtFailedWait | wireapp.go:260-277 | when the clicked conversation never becomes active, or the message box never shows, SendMessage fails having clicked the conversation and nothing more |
| WireApp.SendMessageFailsOnlyForACause | wireapp.go:245-295 | SendMessage fails only when the page shows no div for the conversation, the conversation never became active, the message box never showed, or the browser refused the last action issued |
| WireApp.NewWireApp | wireapp.go:23-48 | no object without both credentials; otherwise a fresh object holding the driver and credentials; the error and driver state are NewWireAppResult's |
| WireApp.WireApp.constructor | wireapp.go:32-35 | the object holds the driver and both credentials |
| WireApp.WireApp.Login | wireapp.go:50-101 | login's calls give exactly LoginResult |
| WireApp.WireApp.PagesAfterLogin | wireapp.go:103-152 | the polling loop gives exactly PagesAfterLoginResult |
| WireApp.WireApp.Pass | wireapp.go:107-150 | one pass of the loop body gives exactly LoopPass |
| WireApp.WireApp.PageAuthClients | wireapp.go:154-189 | the method gives exactly AuthClientsResult |
| WireApp.WireApp.PageAuthHistoryInfo | wireapp.go:191-205 | the method gives exactly HistoryInfoResult |
| WireApp.WireApp.ListConversations | wireapp.go:297-340 | one Conversation per listed uuid, in order, each bound to this session; the error and driver state are ListConversationsResult's |
| WireApp.WireApp.CollectConversations | wireapp.go:327-337 | the loop gives one Conversation per uuid that CollectUuids reads, in order |
| WireApp.WireApp.FindConversation | wireapp.go:342-370 | the conversation returned is the one FindConversationResult picks, bound to this session; it is null exactly when none is picked |
| WireApp.Conversation.constructor | wireapp.go:330 | the handle holds its uuid and its session |
| WireApp.Conversation.GetTopic | wireapp.go:213-243 | the method gives exactly GetTopicResult |
| WireApp.Conversation.SendMessage | wireapp.go:245-295 | the method gives exactly SendMessageResult |

## Left out

- Logging (`log.Printf`) and `previousURL` in `pagesAfterLogin` are not modelled. They only print.
- Real time is not modelled. `time.Sleep(100 * time.Millisecond)` and selenium's 100 ms poll interval are one clock tick each. A 5-second wait is `WaitTicks` = 50 sleeps after the first poll. Selenium compares elapsed wall-clock time, so its poll count can differ by one.
- WebDriver.WaitResult: the timeout error is the plain text "timeout". Selenium's message also gives the elapsed time.
- XPath is not evaluated. A locator is an opaque key into the snapshot's matches. The active-conversation locator and the conversation locator are therefore independent keys.
- The JavaScript that removes the warnings div is not modelled. Only whether `ExecuteScript` fails is. Its result value is discarded by the source too.
- WireApp.PagesAfterLoginResult: the source loop has no exit of its own. The model ends it when the scripted session runs out, because a read past the script fails.
- WireApp.WireApp.ListConversations: on a failing uuid read the source returns a slice of full length. Its failed entry is a non-nil conversation bound to the session with an empty uuid, and the later entries are nil. The model returns only the conversations read before the failure. Callers discard the slice on error.
- WireApp.WireApp.ListConversations: the failure of `FindElements` right after a successful wait is not reachable in the model. Both calls read the same snapshot. The source's error path is kept as a dead branch.
- WireApp.Conversation.SendMessage: the wait's closure captures the outer `element` variable. The model starts that wait with no captured element. The value is overwritten by the next call before any use.
- The page changes only between polls. In this model the browser moves on only while the core sleeps, so every driver call between two sleeps sees the same page. A page that changes between two calls with no sleep between them is not modelled. Two runs of the source are therefore out of reach:
  - pagesAfterLogin reads the device-limit URL, and the page moves on before waitForElementXPath records its URL. The wait then records the new URL and can time out on the remove-device control, so the loop fails instead of polling again.
  - The page leaves the home view while FindConversation reads the topics. GetTopic then returns an empty topic and no error, so FindConversation can miss a listed target or match an empty target.
- WireApp.FindsFirstShown: its claims hold for a page that stays the same during the search, the only kind this model has between two sleeps. The cells it speaks of are those shown at the poll where the listing's wait ended.
- The browser driver's own behaviour (element refusal, session end) is a fixed scripted setting. The network and the remote browser are not modelled.
- `main.go` and `cmd/` are not part of this model. That covers command-line parsing, the signal handler goroutine and the Selenium service start-up.
