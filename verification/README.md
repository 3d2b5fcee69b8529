# Portfolio single-page app: a Dafny model of its interactive logic

This project models the parts of the portfolio page that carry logic rather
than layout. Everything else in the app is presentation.

- **Project gallery and modal viewer** (`App.tsx`):
  - the six-entry `PROJECTS` list;
  - the `selectedProject` slot, with the card, backdrop and close-button handlers;
  - `navigateProject`, which moves to the neighbouring project and wraps around at both ends, computed with JavaScript's `%` and `findIndex`;
  - the window `keydown` handler: ArrowLeft, ArrowRight and Escape;
  - the service cards' link classifier, which decides whether a card's button follows its `href` or scrolls within the page.
- **Intro overlay** (`components/Intro.tsx`):
  - a typewriter interval that reveals `console.log("Champion");` one character per 80 ms tick;
  - then the timeouts that show the ball (400 ms), the impact (600 ms) and the logo (1000 ms), and call `onComplete` (3000 ms).
- **Chat widget** (`components/AIChat.tsx` with `services/geminiService.ts`):
  - the message log, which starts with a greeting;
  - the input field and the loading flag;
  - `handleSend`, split at its `await` into the part that logs and sends the user's text and the part that logs the reply;
  - the send button's enabled condition and the Enter key path;
  - the service stub, which always replies "AI Service is currently offline.".

The files:

- `common.dfy` (module `Common`): an `Option` type, JavaScript's remainder operator, `startsWith`, and function iteration.
- `gallery.dfy` (module `Gallery`):
  - pure functions for lookup, navigation, key handling and link classification;
  - the lemmas about them;
  - a class `ProjectModal` whose methods update the selection and are proved equal to those functions.
- `intro.dfy` (module `IntroSequence`):
  - the typewriter as a pure step function, with lemmas for the whole typing run;
  - a class `Intro` whose state is the component's state.
    - `Tick` is one firing of the interval.
    - `Fire` is the firing of the earliest pending timeout.
    - `Unmount` is the removal of the component.
  - `Intro.Valid` is the invariant these methods preserve. It says what the screen can show at each point of the sequence, and which timeouts can then be pending.
- `chat.dfy` (modules `GeminiService` and `AiChat`):
  - JavaScript `trim`;
  - the chat state and its transitions as functions, with an invariant over the log and the requests in flight;
  - a class `ChatWidget` whose methods are proved equal to those transitions.

Time is not modelled: each timer firing is one step. Timeouts set at the same moment fire in the order of their delays. The model keeps each queue of pending timers in that order. In the chat, the reply to a request may arrive after any later event. Replies arrive in the order the requests were sent, so the chat keeps the awaited requests first in, first out.

## Model

| member | source | states |
|---|---|---|
| Common.JsRem | App.tsx:159-161 | JavaScript `%` with a positive divisor: the result has the dividend's sign and lies strictly between `-n` and `n`; for `0 <= a < n` it is `a`, for `n <= a < 2n` it is `a - n` |
| Common.StartsWith | App.tsx:510 | `s.startsWith(prefix)`; a predicate with no contract of its own, see `Common.StartsWithAppend` and `Gallery.ServiceCardsClassified` |
| Gallery.Projects | App.tsx:40-100 | the gallery lists six projects in display order |
| Gallery.ProjectIdsDistinct | App.tsx:40-100 | the ids are "1" to "6" in order, pairwise distinct |
| Gallery.FindIndex | App.tsx:156 | `findIndex` by id yields -1 or an index whose entry carries the id |
| Gallery.FindIndexFinds | App.tsx:156 | if entry `i` carries the id, `findIndex` finds a match at `i` or earlier (it never yields -1 then) |
| Gallery.FindIndexExact | App.tsx:156 | with distinct ids, looking up entry `i`'s id yields exactly `i` |
| Gallery.StepIndex | App.tsx:157-162 | both index formulas give a valid index of a non-empty list, even from the not-found index -1 |
| Gallery.StepIndexWraps | App.tsx:158-162 | from a valid index, `next` adds one and wraps from the last entry to the first; `prev` subtracts one and wraps from the first entry to the last |
| Gallery.Navigate | App.tsx:154-164 | with nothing selected, navigation leaves nothing selected; otherwise the new selection is always an entry of the list |
| Gallery.NavigateAt | App.tsx:154-164 | navigating from entry `i` selects entry `i + 1` or `i - 1`, wrapping around at both ends |
| Gallery.NavigateFromUnknown | App.tsx:155-163 | a selection whose id is not in the list moves to the first entry on `next`, and, when the list has two entries or more, to the second-to-last on `prev` |
| Gallery.NextPrevInverse | App.tsx:154-164 | `next` then `prev` returns to the same project, and so does `prev` then `next` |
| Gallery.NextTimesForward | App.tsx:158-159 | pressing `next` `k` times from entry `i` reaches entry `i + k` while that stays in the list |
| Gallery.NextPeriod | App.tsx:154-164 | pressing `next` as many times as there are projects returns to the starting project |
| Gallery.KeyDown | App.tsx:129-134 | with nothing selected, no key selects anything; a selection from the list stays in the list |
| Gallery.KeyDownEffect | App.tsx:128-137 | on a selected entry, ArrowRight moves forward and ArrowLeft moves back (with wrap-around), Escape closes, other keys do nothing, and the two arrows undo each other |
| Gallery.IsExternal | App.tsx:510 | the test whether a link starts with `http` or with `mailto`; a predicate with no contract of its own, see `Gallery.Href` and `Gallery.ClickCard` |
| Gallery.Href | App.tsx:510 | links starting with `http` or `mailto` are used unchanged; any other link becomes `#` + link, which always differs from the link |
| Gallery.ClickCard | App.tsx:510-516 | a click scrolls to section `link` exactly when the `href` was rewritten to `#link`; otherwise it follows the link unchanged |
| Gallery.ServiceCardsClassified | App.tsx:463-487 | of the three service cards, the first ("projects") scrolls to `#projects`; the two `mailto:` cards follow their links |
| Gallery.ProjectModal.constructor | App.tsx:123 | the modal starts with nothing selected |
| Gallery.ProjectModal.OpenCard | App.tsx:345-346 | clicking a gallery card selects that project |
| Gallery.ProjectModal.Close | App.tsx:573-585 | the backdrop and the close button clear the selection |
| Gallery.ProjectModal.NavigateProject | App.tsx:154-164 | the index computation leaves the selection equal to `Navigate` of the previous selection, keeps it within the list, and never clears an existing selection |
| Gallery.ProjectModal.HandleKeyDown | App.tsx:128-137 | the handler's sequence of `if`s leaves the selection equal to `KeyDown` of the previous selection |
| IntroSequence.StageTimersInDelayOrder | components/Intro.tsx:39-56 | the stage timeouts have increasing delays (600 < 1000 < 3000 ms), so impact, logo and completion fire in that order |
| IntroSequence.TypingTick | components/Intro.tsx:25-34 | one firing of the interval callback; no contract of its own, see `IntroSequence.TickGrowsPrefix` and `IntroSequence.TypingAfterShape` |
| IntroSequence.TickGrowsPrefix | components/Intro.tsx:25-34 | a tick keeps the text a prefix of the full line, never shrinks it, and adds at most one character; it stops the interval exactly when the counter has passed the line's length |
| IntroSequence.TypingAfterShape | components/Intro.tsx:22-37 | after `k <= L + 1` ticks the first `Shown(k)` characters are shown (none after 0 or 1 tick, `k - 1` after `k >= 1` ticks) and the interval still runs; after more ticks the full line is shown and the interval is cleared |
| IntroSequence.TypingSchedule | components/Intro.tsx:24-34 | the interval runs for `L + 1` ticks; only the last of them shows the full line, and the tick after that clears the interval |
| IntroSequence.Intro.PendingInDelayOrder | components/Intro.tsx:32-54 | the pending timeouts are in firing order, and once the ball shows they are what is left of impact, logo and completion |
| IntroSequence.Intro.constructor | components/Intro.tsx:15-25 | a new intro shows empty text; its interval runs, and no stage is reached or pending |
| IntroSequence.Intro.Tick | components/Intro.tsx:25-34 | one interval firing is `TypingTick` of the typing state and keeps the invariant; the tick that clears the interval sets only the 400 ms ball timeout |
| IntroSequence.Intro.Fire | components/Intro.tsx:32-54 | the earliest timeout fires. The ball timeout shows the ball and sets the three stage timeouts; the impact and logo timeouts raise their flag; all of these only while the intro is mounted. The completion timeout calls `onComplete` even after unmount. The invariant is preserved |
| IntroSequence.Intro.Unmount | components/Intro.tsx:36 | unmounting clears the interval but leaves already-set timeouts pending |
| IntroSequence.RunUninterrupted | components/Intro.tsx:22-56 | an intro that stays mounted shows the full line, reaches the ball, the impact and the logo, and calls `onComplete` |
| GeminiService.SendMessageToGemini | services/geminiService.ts:14-16 | the stub; no contract of its own, see `GeminiService.ReplyIgnoresMessage` |
| GeminiService.ReplyIgnoresMessage | services/geminiService.ts:14-16 | `sendMessageToGemini` answers every message with the same non-empty notice, "AI Service is currently offline."; the reply does not depend on the message |
| AiChat.IsJsSpace | components/AIChat.tsx:37 | the characters `trim` removes (ECMAScript WhiteSpace and LineTerminator); a predicate with no contract of its own, see `AiChat.TrimEmptyIffBlank` |
| AiChat.TrimStart | components/AIChat.tsx:37 | removes exactly the leading JavaScript white space: the result is a suffix of the input, it does not start with white space, and everything removed was white space |
| AiChat.TrimEnd | components/AIChat.tsx:37 | the same for trailing white space, with a prefix |
| AiChat.Trim | components/AIChat.tsx:37 | `trim` returns no longer a string, and neither of its ends is white space |
| AiChat.TrimEmptyIffBlank | components/AIChat.tsx:37 | `!input.trim()` holds exactly when the input consists only of white space (or is empty) |
| AiChat.InitialChatInv | components/AIChat.tsx:15-19 | the initial state (greeting only, empty field, not loading) satisfies the chat invariant |
| AiChat.Typed | components/AIChat.tsx:113 | the field's `onChange`; no contract of its own, see `AiChat.TypedInv` and `AiChat.LogAppendOnly` |
| AiChat.TypedInv | components/AIChat.tsx:113 | typing into the field keeps the invariant |
| AiChat.Send | components/AIChat.tsx:36-45 | `handleSend` up to its `await`; no contract of its own, see `AiChat.SendInv`, `AiChat.LogAppendOnly` and `AiChat.SendThenReply` |
| AiChat.SendInv | components/AIChat.tsx:36-45 | `handleSend` up to its `await` keeps the invariant. A blank input changes nothing. Otherwise exactly the user's entry is appended to the log, the same text is sent, the field is cleared and loading is set |
| AiChat.Reply | components/AIChat.tsx:47-50 | `handleSend` after its `await`; no contract of its own, see `AiChat.ReplyInv` and `AiChat.SendThenReply` |
| AiChat.ReplyInv | components/AIChat.tsx:47-50 | the reply to the oldest request keeps the invariant. It appends the offline notice, retires that request and clears loading |
| AiChat.LogAppendOnly | components/AIChat.tsx:36-51 | no event removes or rewrites an existing entry of the log |
| AiChat.SendThenReply | components/AIChat.tsx:36-51 | from an idle widget, a non-blank send followed by its reply appends exactly the user's text and the offline notice, and leaves the widget idle with an empty field |
| AiChat.SendEnabled | components/AIChat.tsx:125 | the negation of the button's `disabled` condition; a predicate with no contract of its own, see `AiChat.ButtonAndEnter` |
| AiChat.Click | components/AIChat.tsx:123-125 | a click on the send button; no contract of its own, see `AiChat.ButtonAndEnter` and `AiChat.LogAppendOnly` |
| AiChat.InputKeyDown | components/AIChat.tsx:114-118 | the field's key handler; no contract of its own, see `AiChat.ButtonAndEnter` and `AiChat.LogAppendOnly` |
| AiChat.ButtonAndEnter | components/AIChat.tsx:114-125 | an enabled send button and the Enter key do the same thing; a disabled button does nothing. Enter ignores the loading flag: in the model, where a reply may arrive after later events, Enter with a non-blank input while loading sends a second request, and the first reply then clears loading while the second is still awaited |
| AiChat.ChatWidget.constructor | components/AIChat.tsx:14-19 | the widget starts with the greeting, an empty field, not loading and nothing awaited |
| AiChat.ChatWidget.OnChange | components/AIChat.tsx:113 | the field takes the typed value |
| AiChat.ChatWidget.HandleSend | components/AIChat.tsx:36-45 | the widget's new state is `Send` of the old one (see `SendInv`) |
| AiChat.ChatWidget.ReceiveReply | components/AIChat.tsx:47-50 | the widget's new state is `Reply` of the old one (see `ReplyInv`) |
| AiChat.ChatWidget.OnSendClick | components/AIChat.tsx:123-125 | a click sends only when the button is enabled |
| AiChat.ChatWidget.OnKeyDown | components/AIChat.tsx:114-118 | Enter sends whatever the loading flag says; other keys do nothing |

Three invariants sit under these rows:

- `AiChat.ChatInv`:
  - the log starts with the greeting;
  - every later model entry is the offline notice;
  - every user entry is non-blank;
  - the awaited requests are exactly the user entries not yet answered, in order;
  - loading is set only while a request is awaited.
- `IntroSequence.Intro.Valid`:
  - the ball shows only after the whole line was typed and the interval stopped;
  - the impact precedes the logo;
  - `onComplete` is pending only once the ball shows;
  - while the intro is mounted, each stage flag is set exactly when its timeout has fired.
- `Gallery.ProjectModal.Valid`: the selection is always one of the six projects.

## Left out

- Rendering, animations, styling, the custom cursor, the fluid background, the glitch text and the artist cards: they have no state that affects the behaviour modelled here.
- Scrolling: `scrollToSection`'s offset computation and smooth scrolling, the chat's scroll-to-bottom effect and its 100 ms timeout. `ClickCard` only records which section would be scrolled to.
- `scrollToSection` also closes the mobile menu. The menu, the skills tabs and the chat's open/closed toggle are display state and are not modelled.
- The image, description and security-note fields of a project: they are display-only.
- Wall-clock time: the delays are kept as constants, and the model keeps only the order in which timers fire.
- The intro's second effect re-runs whenever its `onComplete` prop changes. The app passes a new arrow function on each render (App.tsx:173), so an app re-render while the ball is visible would set a second round of stage timeouts. The model sets them once, when the ball appears, so it does not show `onComplete` being called more than once.
- IntroSequence.Intro.Fire: the model does not bound how often `onComplete` runs; it only counts the calls. Whether the host's callback runs exactly once, or runs after unmount, is not claimed.
- React batching and stale closures: each event is one atomic step on the latest state. Two Enter presses handled before a re-render would both read the same captured input in the app. In the model, the second press sees the cleared field.
- AiChat.ButtonAndEnter: the model lets a reply arrive after later input events. That over-approximates the app: its invariants hold for every such order. A second request overlapping the first needs a service that answers slowly. With the stub in `services/geminiService.ts`, the promise is already resolved, so the reply is logged and loading cleared in a microtask, before the next keydown or click. The overlap the lemma exhibits therefore does not happen with the stub.
- `initializeGemini` only logs to the console, so it is not modelled.
- The network: the service is the stub, so the reply is the constant offline notice. A rejected promise cannot happen with the stub and is not modelled.
- The optional `isError` flag of chat messages is never set by the widget and is not modelled.
