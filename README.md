# Wellness front end: page state machines in Dafny

This project models the client-side state of four pages of a mental-wellness
single-page application, and proves what their handlers do to that state.

- **Meditation** (`meditation.dfy`): the breathing timer. It covers the countdown of
  the session's seconds, the four-step box-breathing cycle (Inhale, Hold, Exhale,
  Hold), start and stop, and the `m:ss` formatting of the remaining time.
- **Community** (`community.dfy`): the feed. It covers creating a post (which goes
  first in the list), liking (the server's copy replaces the post by id),
  commenting (the server's comment goes at the end of that post's comments) and
  deleting (the post is filtered out by id). It also covers which controls a post
  shows.
- **Mood** (`mood.dfy`): the mood journal form. It covers per-field length limits,
  submit and delete (both re-fetch the history), and the load sequence that probes
  the session first and then fetches.
- **AiTherapy** (`ai_therapy.dfy`): the chat log. A fixed greeting comes first. A
  send shows the user's message at once and then adds exactly one assistant
  message: the generated reply or a fixed apology. Saved history is replayed
  behind the greeting.

Each page is a class whose fields are the page's `useState` slots. Each handler
is a method that takes the result of each backend call as a parameter. That
result is an `Outcome`: `Ok(payload)`, `Unauthorized` (HTTP 401) or
`OtherError`. The method returns the handler's effects in order. An effect is a
backend request or a navigation, so "sends no request" and "navigates to
`/login`" can be read directly from the result. The generative-text service is
an oracle: a send is given its reply as `Some(text)`, or `None` when it failed.
A firing of an interval callback is a method call. `common.dfy` holds the shared
types and the `trim()`-emptiness test (`IsBlank`).

A request effect carries its JSON body as a list of top-level fields, in the
order the code writes them. GET, DELETE and the like request's empty `{}` carry
none.

Points of the code's behaviour worth knowing:

- The `onChange` handlers refuse over-long text whole rather than truncating it
  (`Mood.GuardedChange`).
- Deleting a mood entry removes nothing locally. The history is fetched again.
- On the chat page the history load is not gated on the session probe.
- Stopping the breathing timer cancels only one of its two intervals (see
  Findings).

## Model

| member | source | states |
|---|---|---|
| `Common.IsBlank` | src/pages/Community.jsx:136 | `!s.trim()`: a text is blank exactly when every character is ECMAScript whitespace (also the send guard at AiTherapy.jsx line 100) |
| `Common.TrimStartEmpty` | src/pages/Community.jsx:136 | trimming leading whitespace empties a text exactly when the whole text is whitespace |
| `Meditation.Decimal` | src/pages/Meditation.jsx:54 | the minutes are written as a non-empty string of decimal digits |
| `Meditation.DecimalRoundTrip` | src/pages/Meditation.jsx:54 | reading the decimal text of `n` gives back `n` |
| `Meditation.DecimalShape` | src/pages/Meditation.jsx:54 | the decimal text has no leading zero, and has one digit below 10 and two digits below 100 |
| `Meditation.PadStart` | src/pages/Meditation.jsx:54 | `padStart` gives the width asked for, keeps the original text at the end, and fills the front with the pad character |
| `Meditation.TwoDigits` | src/pages/Meditation.jsx:53-54 | seconds below 100, padded to two, are exactly two digits that read back as the seconds |
| `Meditation.FormatTime` | src/pages/Meditation.jsx:51-55 | `formatTime(s)` is `Decimal(s div 60)` (no leading zero), a colon at the third-last place, then `s mod 60` as exactly two digits |
| `Meditation.MinutesSecondsText` | src/pages/Meditation.jsx:52-54 | minutes in decimal, a colon and seconds below 100 padded to two digits read back as those minutes and seconds |
| `Meditation.FormatTimeRoundTrip` | src/pages/Meditation.jsx:51-55 | parsing `formatTime(s)` as `m:ss` gives `m*60 + ss == s` |
| `Meditation.FormatTimeInjective` | src/pages/Meditation.jsx:51-55 | different second counts are shown as different texts |
| `Meditation.CountdownNext` | src/pages/Meditation.jsx:22-28 | one countdown firing lowers a positive value by exactly one and leaves 0 at 0 |
| `Meditation.AfterTicksValue` | src/pages/Meditation.jsx:22-28 | after `k` countdown firings from `t`, the value is `t - k`, or 0 once `k >= t`; it is never negative |
| `Meditation.ExactlyNTicksReachZero` | src/pages/Meditation.jsx:22-28 | from `n >= 1`, exactly `n` firings reach 0, every earlier value is positive, and later firings stay at 0 |
| `Meditation.NextStep` | src/pages/Meditation.jsx:38 | a step advance always lands inside `BREATHE_STEPS` |
| `Meditation.StepAfterIsMod` | src/pages/Meditation.jsx:35-39 | after `k` cycle firings from the reset the step is `k mod 4`: 0, 1, 2, 3, 0, ... |
| `Meditation.BreathingTimer.constructor` | src/pages/Meditation.jsx:11-15 | initial state: not running, step 0, 5 minutes, no time left, no stored handle, no live interval |
| `Meditation.BreathingTimer.SetDuration` | src/pages/Meditation.jsx:81-88 | the slider sets the duration, which stays within 1 to 15 minutes |
| `Meditation.BreathingTimer.SetInterval` | src/pages/Meditation.jsx:21 | `setInterval` (here and at line 37) adds one live interval under a fresh handle that no live interval has, and changes no other entry |
| `Meditation.BreathingTimer.StartBreathing` | src/pages/Meditation.jsx:17-33 | start sets running, `timeLeft = duration*60` and step 0, and adds a countdown and a cycle interval; `timerRef` is left holding the cycle's handle only |
| `Meditation.BreathingTimer.StartBreathCycle` | src/pages/Meditation.jsx:35-43 | the step resets to 0, a cycle interval is added, and its handle overwrites `timerRef` |
| `Meditation.BreathingTimer.StopBreathing` | src/pages/Meditation.jsx:45-49 | stop leaves the session not running and at step 0, and removes only the interval whose handle `timerRef` holds |
| `Meditation.BreathingTimer.CountdownTick` | src/pages/Meditation.jsx:21-29 | a countdown firing maps `t > 1` to `t-1`; at `t <= 1` it stops the session and sets 0 |
| `Meditation.BreathingTimer.CycleTick` | src/pages/Meditation.jsx:37-39 | a cycle firing advances the step to `(prev+1) % 4` |
| `Meditation.BreathingTimer.Instruction` | src/pages/Meditation.jsx:114 | the instruction shown is `BREATHE_STEPS[currentStep].instruction`, always in bounds |
| `Meditation.StopLeavesCountdownLive` | src/pages/Meditation.jsx:21-49 | after start and then stop, the countdown interval is still live |
| `Meditation.RestartRunsTwoCountdowns` | src/pages/Meditation.jsx:17-49 | after start, stop and start, two countdown intervals are live at once |
| `Meditation.FixedBreathingTimer.StartBreathing` | src/pages/Meditation.jsx:17-43 | corrected start: as written, but the countdown and cycle handles are kept apart, and exactly those two intervals are live |
| `Meditation.FixedBreathingTimer.CountdownTick` | src/pages/Meditation.jsx:22-28 | corrected countdown firing: `t > 1` goes to `t-1` with the step unchanged; at `t <= 1` the session stops at step 0 with no interval left live |
| `Meditation.FixedBreathingTimer.CycleTick` | src/pages/Meditation.jsx:37-39 | corrected cycle firing: the step advances by `NextStep`, as written |
| `Meditation.FixedBreathingTimer.StopBreathing` | src/pages/Meditation.jsx:45-49 | corrected stop: both handles are kept, so stop leaves no interval live |
| `Meditation.FixedStopClearsAll` | src/pages/Meditation.jsx:45-49 | corrected timer: after start and then stop, no interval is live |
| `Community.MapMatching` | src/pages/Community.jsx:115-119 | the id-matched `map` keeps length and order, changes each post with the id, and leaves every other post as it was |
| `Community.ReplaceById` | src/pages/Community.jsx:115-119 | like success: each post with the id becomes the server's copy, all other posts are unchanged, and the length is kept |
| `Community.WithComment` | src/pages/Community.jsx:150 | exactly one comment is added at the end of the post's comments; its other fields are unchanged |
| `Community.AddCommentById` | src/pages/Community.jsx:148-152 | comment success: the matching posts get the comment at the end, and all other posts are unchanged |
| `Community.RemoveById` | src/pages/Community.jsx:182 | `filter(post => post._id !== id)`: the list never grows; what is left is given by the four lemmas below |
| `Community.RemoveByIdMembers` | src/pages/Community.jsx:182 | after delete, the posts left are exactly the posts without that id |
| `Community.RemoveByIdAppend` | src/pages/Community.jsx:182 | delete keeps the relative order of the remaining posts |
| `Community.RemoveAbsentId` | src/pages/Community.jsx:182 | deleting an id no post carries leaves the list unchanged |
| `Community.RemoveByIdLength` | src/pages/Community.jsx:182 | delete removes as many posts as carry the id |
| `Community.LikeTwiceRestores` | src/pages/Community.jsx:104-119 | when the server returns the liked post and then the original, the list is back to what it was; the client never counts likes itself |
| `Community.ShowsDelete` | src/pages/Community.jsx:277 | the delete control is shown iff there is a user, the post has an author, and their ids are equal |
| `Community.HeartFilled` | src/pages/Community.jsx:296 | the heart is filled iff there is a user and the post's `likes` holds the user's id |
| `Community.DeleteControlOwnerOnly` | src/pages/Community.jsx:277 | the delete control is shown to the post's author, and not to another user or with no user |
| `Community.CommunityPage.constructor` | src/pages/Community.jsx:10-17 | initial state: no posts, empty drafts, no error, no user, loading |
| `Community.CommunityPage.PostControls` | src/pages/Community.jsx:277-301 | delete shown iff `ShowsDelete`; heart filled iff `HeartFilled`; count is `likes.length` |
| `Community.CommunityPage.FetchPosts` | src/pages/Community.jsx:53-67 | the posts change only on success; a 401 goes to `/login`; another error sets 'Failed to load posts' |
| `Community.CommunityPage.CheckAuthAndLoadData` | src/pages/Community.jsx:20-47 | posts are fetched only after a user payload arrives; no payload or a 401 goes to `/login`; another error sets 'Failed to load content'; loading ends false |
| `Community.CommunityPage.HandleCreatePost` | src/pages/Community.jsx:69-102 | with no user it only navigates to `/login`; the POST carries the draft and the anonymous flag; on success the server's post is first, the old posts follow in order, and the draft and anonymous flag reset; on failure the posts are unchanged |
| `Community.CommunityPage.HandleLikePost` | src/pages/Community.jsx:104-128 | on success the list is `ReplaceById`; a 401 goes to `/login`; another error sets a message and leaves the posts unchanged |
| `Community.CommunityPage.ToggleSelected` | src/pages/Community.jsx:304 | the comment toggle deselects the selected post and selects any other |
| `Community.CommunityPage.HandleAddComment` | src/pages/Community.jsx:130-164 | no user: an error and no request; blank comment: nothing; otherwise the POST carries the comment text; success: `AddCommentById`, and the comment and selection reset; failure: posts unchanged |
| `Community.CommunityPage.HandleDeletePost` | src/pages/Community.jsx:166-192 | no user: only an error; success: `RemoveById`; a 401 goes to `/login`; another error sets a message and leaves the posts unchanged |
| `Mood.GuardedChange` | src/pages/Mood.jsx:190-194 | a change is taken iff it fits the limit; otherwise the field keeps its value; a field within the limit stays within it |
| `Mood.SaveErrorText` | src/pages/Mood.jsx:119 | the submit error is the server's message, or 'Failed to save mood entry' when that is absent or empty |
| `Mood.MoodPage.constructor` | src/pages/Mood.jsx:20-27 | initial state: no mood, empty fields, no error, empty history, no user |
| `Mood.MoodPage.SelectMood` | src/pages/Mood.jsx:173 | a mood button selects that mood; the field limits still hold |
| `Mood.MoodPage.ChangeJournal` | src/pages/Mood.jsx:190-194 | the journal takes the change only if it has at most 500 characters, so it never exceeds 500 |
| `Mood.MoodPage.ChangeGratitude` | src/pages/Mood.jsx:209-214 | gratitude takes the change only if it has at most 200 characters |
| `Mood.MoodPage.ChangeGoals` | src/pages/Mood.jsx:228-233 | goals take the change only if it has at most 200 characters |
| `Mood.MoodPage.FetchMoodHistory` | src/pages/Mood.jsx:67-83 | the history becomes the server's list on success; a 401 goes to `/login`; another error changes nothing |
| `Mood.MoodPage.CheckAuthAndLoadData` | src/pages/Mood.jsx:31-58 | history is fetched only after a user payload arrives; no payload or a 401 goes to `/login` without fetching; another error sets 'Failed to load content' |
| `Mood.MoodPage.HandleSubmit` | src/pages/Mood.jsx:85-127 | no user: only `/login`; no mood: 'Please select a mood', no request, fields kept; otherwise the POST carries the mood and the three fields as typed; success: form reset and exactly one history fetch; failure: server or default message, fields kept, `/login` on 401 |
| `Mood.MoodPage.HandleDelete` | src/pages/Mood.jsx:129-148 | no user: only `/login`; success: no local removal, and the history is fetched again; failure: history unchanged, `/login` on 401 |
| `AiTherapy.PromptContext` | src/pages/AiTherapy.jsx:137 | the prompt quotes at most the last three messages: a suffix of the log, and all of it when it is shorter |
| `AiTherapy.Replayed` | src/pages/AiTherapy.jsx:77-85 | non-empty history is shown as the greeting followed by the history; empty or absent data leaves the log unchanged |
| `AiTherapy.AssistantReply` | src/pages/AiTherapy.jsx:141-160 | a send ends with one assistant message: the reply if every step succeeded, else the fixed apology |
| `AiTherapy.SendRequests` | src/pages/AiTherapy.jsx:113-152 | the user's text is always posted with role `user`; the reply is posted with role `assistant` exactly when that save and the generation both succeed |
| `AiTherapy.SendAddsOneExchange` | src/pages/AiTherapy.jsx:103-160 | a send adds exactly the user's message and then one assistant message, never both the reply and the apology |
| `AiTherapy.ChatPage.constructor` | src/pages/AiTherapy.jsx:12-24 | the log starts with the greeting alone; not loading; no user |
| `AiTherapy.ChatPage.SetNewMessage` | src/pages/AiTherapy.jsx:220 | the input sets the draft |
| `AiTherapy.ChatPage.CheckAuthAndLoadData` | src/pages/AiTherapy.jsx:40-63 | a payload sets the user; no payload or a 401 goes to `/login`; another error sets 'Failed to load content'; nothing else is fetched |
| `AiTherapy.ChatPage.FetchChatHistory` | src/pages/AiTherapy.jsx:70-93 | the log becomes `Replayed` on success; a 401 goes to `/login`; another error changes nothing |
| `AiTherapy.ChatPage.BeginSend` | src/pages/AiTherapy.jsx:98-111 | a blank draft or a send in progress changes nothing; otherwise `loading` is set, the user message goes at the end and the draft is cleared before any network result |
| `AiTherapy.ChatPage.CompleteSend` | src/pages/AiTherapy.jsx:113-163 | exactly one assistant message is appended, and `loading` ends false on every path |
| `AiTherapy.ChatPage.HandleSendMessage` | src/pages/AiTherapy.jsx:98-164 | the whole send: the log gains the user message and one assistant message, the draft is cleared, and `loading` ends false |

## Left out

- HTTP calls, cookies and the backend: each call is an `Outcome` parameter. A
  handler reads a success's payload (`response.data.data`) and whether a failure
  is a 401; a failure's `message` is read only on a failed mood save.
- The generative-text call: it is a foreign library, so a send is given its reply
  as a parameter. The prompt's wording and the user name in it are not modelled.
  Only the three messages it quotes are (`PromptContext`).
- Real-time interval scheduling, the interleaving of awaited calls, and updates
  after unmount: each interval firing and each handler is one method call. One
  interleaving goes unmodelled: the chat page's session probe clears `loading`
  when it finishes, even during a send. Another: the mood page's un-awaited
  history fetch resolves after `loading` is cleared. It is applied at the end of
  the handler.
- JSX rendering, CSS class strings, scroll refs, date formatting, the mood
  buttons' colours and emoji, and console logging.
- Disabled buttons: the post, comment, submit and send buttons are disabled when
  their input is blank or the page is loading. These are UI guards. The handlers
  are modelled as written: the comment and send handlers re-check, but the
  create-post handler does not check for a blank draft.
- The textareas' `maxLength` attribute lets the browser cut pasted text before
  `onChange` runs. Only the handlers' own length checks are modelled.
- String length: JavaScript counts UTF-16 code units and the model counts
  characters. They differ only for characters outside the Basic Multilingual
  Plane.
- An `undefined` list in a successful response (`response.data.data` missing) on
  the feed and mood pages: a successful fetch always carries a list.
- The login, register, profile, header and SOS pages, the static pages, the
  route table and the build configuration.

## Findings

| source | as written | input that shows it | evidently intended | confidence | as-written member | corrected member |
|---|---|---|---|---|---|---|
| src/pages/Meditation.jsx:42 | `startBreathCycle` stores the cycle interval's handle in `timerRef.current`, overwriting the countdown's handle stored at line 21, so `stopBreathing` clears only the cycle interval | start a session, then press End Session: the countdown keeps firing; start again and two countdowns decrement `timeLeft` | stop cancels both intervals | high; not executed | `Meditation.StopLeavesCountdownLive` | `Meditation.FixedBreathingTimer.StopBreathing` |
