# Vagai scanner: result extraction and detection loop

The browser front end of Vagai (`app.js`) captures a camera frame and sends
it with a fixed prompt to a small vision-language model running in the page.
It waits for the reply, pulls a JSON object out of the model's free text and
shows it on a result card. It then waits one second before capturing the
next frame, so the period is the inference time plus one second. This project models two parts
of that script in Dafny and proves what they promise.

- **The extractor** (`parseAndDisplay`).
  - It finds the span `/\{[\s\S]*\}/` in the reply and parses it with `JSON.parse`.
  - It writes category, name and count, falling back through `||` to
    "UNKNOWN", "Object" and "--".
  - It rebuilds the near-match chips and sets the damage badge and card visibility.
  - The writes happen one at a time. A TypeError thrown part-way leaves the
    card partly updated, and the function's own `catch` swallows it.
- **The detection loop**.
  - It holds the module-level flags `isModelLoaded`, `isDetecting` and `lastResult`.
  - The model-load outcome sets the status pill and `isModelLoaded`.
  - The guard in `runInference`: nothing happens unless both flags are set.
  - After each completion, one 1000 ms timer is scheduled if detection is still on.
  - The start, pause and stop buttons.

Files:

- `wrappers.dfy`: module `Wrappers`, the `Option` type.
- `js.dfy`: module `Js`. The JavaScript semantics the extractor depends on:
  - the JSON values `JSON.parse` returns, plus `undefined`;
  - own-property reads;
  - truthiness;
  - string conversion. This includes the TypeError raised when an object has
    its own `toString` property, which JSON can only make non-callable.
  - `JSON.parse` and number-to-text conversion are host functions, passed in
    as a `Host` value.
- `span.dfy`: module `Span`. The regular expression is modelled as the engine
  runs it: the leftmost start, then the longest match by greedy backtracking.
  Lemmas prove this equals two independent definitions:
  - leftmost-greedy regex semantics;
  - "first `{`, then the last `}`, which must come after it".
- `extractor.dfy`: module `Extractor`.
  - `Display`, the result card's texts and flags.
  - `Render` and `Apply`, pure functions for what `parseAndDisplay` leaves on
    the card, including partial updates.
  - Lemmas for the defaults, the order of the match list, the partial-update
    cases and when the card is shown.
- `loop.dfy`: module `Loop`.
  - Class `Detector` holds the flags, the card and two counters: calls still
    in flight and timers still pending. Each event is a method:
    InitWllama, LoadOk, LoadFail, RunInference, Start, Pause, Stop,
    InferDone(text, ms), InferFail and TimerFire.
  - `ParseAndDisplay` makes the card writes imperatively, with the `forEach`
    loop as a `while` loop, and is proved equal to `Extractor.Apply`.
  - Six client methods prove scenarios.

Environment facts:

- The page's initial markup and texts are not part of this model. The
  constructor takes them as parameters.
- Latency is the millisecond value that the InferDone event carries.

## Behaviour of the code worth noting

The model follows the code in each case below.

- **Non-reentrancy.** The code does not guarantee it.
  - Suppose a call is in flight. Pause then Start runs `runInference` again,
    and the old call also schedules a timer when it completes. Two chains then
    run, with two calls in flight (`Loop.SecondChainWitness`).
  - What holds is the per-completion rule (`InferDone`, `InferFail`).
  - The invariant `Valid()` also holds: calls in flight plus pending timers
    never exceed 1 plus the number of Starts made while a chain was live.
    Start's contract says when it adds to that number. With no such Start,
    at most one call is ever in flight (`Loop.AtMostOneChain`).
- **Start before load.** Start does not check that the model is loaded.
  - Started before the load resolves, it sets `isDetecting` and shows the
    pause button.
  - The guard then stops the cycle, and the load resolving does not start one
    (`Loop.EarlyStartStalls`).
- **No frame.** The code does not skip a cycle when no frame is available. It
  encodes whatever the canvas holds and calls the model anyway.
- **Latency.** It is written only after a successful completion, before
  parsing, and not after a failed one.
- **Saving on Stop.** `lastResult` is never assigned, so Stop's save branch
  never fires. No method frames `lastResult`, and `Loop.StopAfterResult`
  shows zero alerts after a successful scan.
- **Braces in the prose.** A `{` in the prose before the object, or a `}`
  in the prose after it, is pulled into the span. `JSON.parse` then fails
  and nothing is shown (`Extractor.StrayCloseWidensSpan`). Only prose with
  no `{` before and no `}` after is safe (`Span.SpanOfPadded`).
- **A reply after Stop.** Stop does not cancel a call in flight, and the
  completion writes the card without checking `isDetecting`. A reply that
  arrives after Stop shows the card that Stop hid
  (`Loop.LateReplyAfterStopShowsCard`).
- **Defaults.** They apply to any falsy value, not only to absent fields. A
  count of 0 shows "Count: --".
- **Partial updates.** Updates are not all-or-nothing.
  - A throw while converting category, name or count: the fields before it
    stay written (`Extractor.HeaderThrowPartial`).
  - `near_matches` present but not an array: category, name and count are
    written and the list cleared, and then the error stops the rest.
  - A null entry, or one whose text conversion throws: as above, and the
    chips before that entry are also kept.

## Model

| member | source | states |
|---|---|---|
| Js.JoinComma | app.js:119-129 | joining an array's converted elements with commas, as `Array.prototype.join` does, succeeds exactly when every element converts |
| Js.ZeroShowsFallback | app.js:121 | 0, "", null and undefined all show the fallback text (so a count of 0 shows "--") |
| Js.JsonTextDefinedIffPrintable | app.js:119-129 | converting a parsed value to text throws exactly when it holds, outside a null slot, an object with an own `toString` |
| Span.LastCloseIn | app.js:114 | the greedy backtracking step finds the last `}` in the range, or reports that there is none |
| Span.MatchFrom | app.js:114 | a match found from position i starts at or after i with `{`, ends with `}`, and is at least two characters long |
| Span.FindSpan | app.js:114 | the extracted span lies inside the text, starts with `{`, ends with `}` and has at least two characters |
| Span.MatchFromCharacterized | app.js:114 | searching from i finds a match iff some `{` at or after i has a `}` after it; the match starts at the first such `{` and ends after the last `}` in the text |
| Span.FindSpanSomeIff | app.js:114-115 | a span is found exactly when a `}` occurs strictly after the first `{` |
| Span.FindSpanIsRule | app.js:114 | the span found is exactly [first `{`, last `}` + 1) (both directions) |
| Span.FindSpanIsLeftmostGreedy | app.js:114-115 | the span is the leftmost-longest regex match, and there is none exactly when the text has no match at all |
| Span.SpanTextShape | app.js:114-116 | the text handed to JSON.parse is a substring of the reply of length at least 2, starting with `{` and ending with `}` |
| Span.SpanOfPadded | app.js:114-116 | an object between prose with no `{` before it and no `}` after it is extracted exactly |
| Extractor.ChipRun | app.js:125-131 | the loop yields the chips of the entries, in order, up to the first entry that throws; it completes iff no entry throws |
| Extractor.ChipRunComplete | app.js:126-131 | when no entry throws, every entry gives one chip, chip i from entry i |
| Extractor.ChipRunStopsAtFirstFailure | app.js:126-131 | a throw at entry k keeps exactly the chips of entries 0..k-1 |
| Extractor.NoChangeOnEarlyFailure | app.js:114-146 | no span, or a span JSON.parse rejects: the card is unchanged and no error escapes |
| Extractor.NoSpanNoChange | app.js:114-115 | a reply with no `}` after its first `{` leaves the card unchanged |
| Extractor.PaddedObjectIsRendered | app.js:114-119 | a padded reply is mapped exactly as the object inside it |
| Extractor.RenderCompleteIff | app.js:119-142 | a mapping with no throw gives the card `Mapped` (defaults, ordered chips, badge iff `damaged` is truthy, card shown); any other leaves badge and card as they were |
| Extractor.CardShownIffMapped | app.js:110-147 | after a call the card is visible iff it already was, or a span was found, parsed and mapped without a throw |
| Extractor.HeaderThrowPartial | app.js:116-121 | a null value, or a throw while converting category, name or count: only the fields before the throw are written |
| Extractor.NonArrayMatchesPartial | app.js:119-126 | a truthy non-array `near_matches`: only category, name and count are written and the list cleared |
| Extractor.FailingEntryPartial | app.js:119-131 | a throwing entry at k (a null entry always throws, since reading `m.name` of null does): category, name, count and the chips of entries before k are written, nothing else |
| Extractor.FalsyFieldsShowSentinels | app.js:119-121 | once the data is not null, a falsy category shows "UNKNOWN" whatever throws later; a falsy name shows "Object" once category is written; a falsy count or a count of 0 shows "Count: --" once category and name are written (`v \|\| fallback` never throws for a falsy value) |
| Extractor.FalsyConfShowsQuestionMark | app.js:129 | a falsy `conf` shows "?" |
| Extractor.MatchListOrder | app.js:125-131 | the list is rebuilt from scratch with chip i from entry i, so no sorting or deduplication; a falsy `near_matches` gives an empty list |
| Extractor.EmptyObjectDefaults | app.js:110-142 | the reply `{}` shows UNKNOWN / Object / Count: -- / no chips / no badge, with the card shown |
| Extractor.ExampleReply | app.js:119-142 | a typical well-formed reply (Grains, Rice, 12, Wheat 40%) gives the card it describes |
| Extractor.PromptTemplateReply | app.js:80 | the prompt's own template object, taken as a reply, shows its placeholder texts and "Count: --" for its `count: 0` |
| Loop.Detector.constructor | app.js:14-17 | both flags false, `lastResult` null, nothing in flight, no timers |
| Loop.Detector.InitWllama | app.js:27-35 | runs once, as the window load handler at app.js:180-183 calls it; the status shows "Downloading AI Model..." and a load is pending |
| Loop.Detector.LoadOk | app.js:43-45 | a resolved load sets `isModelLoaded` and shows "AI Ready - Press Start" (the only method whose frame holds `isModelLoaded`) |
| Loop.Detector.LoadFail | app.js:46-49 | a failed load shows "Error Loading Model" and leaves `isModelLoaded` unchanged |
| Loop.Detector.RunInference | app.js:66-89 | a call is issued iff both `isDetecting` and `isModelLoaded` hold; otherwise nothing changes |
| Loop.Detector.ParseAndDisplay | app.js:110-147 | the card after the call equals `Extractor.Apply` of the card before it |
| Loop.Detector.WriteCard | app.js:119-142 | the writes for a parsed value equal `Extractor.Render` |
| Loop.Detector.AppendChips | app.js:124-131 | the loop appends exactly `ChipRun`'s chips to the cleared list and reports whether it finished |
| Loop.Detector.Start | app.js:150-155 | sets `isDetecting` without checking the load, swaps the buttons, and issues a call iff the model is loaded |
| Loop.Detector.Pause | app.js:157-162 | clears `isDetecting` and swaps the buttons; the card is kept |
| Loop.Detector.Stop | app.js:164-177 | clears `isDetecting`, swaps the buttons, hides the card, and raises the save alert only if `lastResult` is set |
| Loop.Detector.InferDone | app.js:89-107 | a completion writes latency, updates the card as `Apply` says, and schedules exactly one timer iff `isDetecting` holds then |
| Loop.Detector.InferFail | app.js:100-107 | a failed call leaves latency, card and flags unchanged and schedules exactly one timer iff `isDetecting` holds |
| Loop.Detector.TimerFire | app.js:104-106 | a firing timer reruns the guarded `runInference` |
| Extractor.ChipRunPrefixFails | app.js:126-131 | once the loop has run cleanly up to an entry that throws, the whole run ends there |
| Loop.AtMostOneChain | app.js:100-107 | with no Start made while a chain was live, at most one call is in flight and calls plus timers are at most one |
| Loop.SingleChainWhenIdleStarts | app.js:150-177 | Start, failure, timer, Stop, late completion, Start again: a single call in flight and a single chain throughout |
| Extractor.StrayCloseWidensSpan | app.js:114 | a `}` in the prose after the object widens the span: `{"a":1} ok :}` is taken whole |
| Loop.LateReplyAfterStopShowsCard | app.js:89-107 | Start, Stop, then a reply `{}` arriving: Stop hid the card and the late reply shows it again |
| Loop.SecondChainWitness | app.js:150-162 | load, Start, Pause, Start leaves two calls in flight |
| Loop.EarlyStartStalls | app.js:150-154 | Start before the load resolves: detecting, pause button shown, and no call or timer live |
| Loop.PauseThenStartResumes | app.js:150-162 | after Pause the chain ends at its next timer; Start then issues a call with no new load |
| Loop.StopAfterResult | app.js:164-177 | after a successful scan Stop raises no save alert and hides the card |

## Left out

- vAgAI.py: the YOLO and OpenCV pipeline, the Streamlit UI, threads and CSV
  or image writes are device and file I/O with no logic worth modelling.
- Wllama construction, `loadModelFromUrl`, the wasm URLs and camera access
  (`startCamera`) are network and device I/O. They appear only as the
  LoadOk and LoadFail events. `startCamera`'s alert is not modelled.
- The load-progress text `Loading Model: N%` is computed with floating-point
  rounding and only changes the status text.
- Frame capture and JPEG encoding (canvas sizing, `drawImage`, `toDataURL`)
  are browser calls. The frame is not represented.
- The fixed prompt text is a constant with nothing to prove.
- Latency timing uses `performance.now()` floats and `toFixed(0)`. The event
  supplies latency as a whole number of milliseconds.
- `JSON.parse` is not reimplemented. It is the host's `parse` function,
  returning None for a SyntaxError.
- Number-to-text conversion is the host's `numberText` function.
- Markup, CSS class names, the status-pill colour and `console` output are
  left out. Only displayed texts and visibility flags are modelled.
- `innerHTML +=` re-parses the chip markup. A name containing HTML would be
  rendered as markup. The model keeps the interpolated texts as they are.
- Every element the script looks up is assumed to exist. With the markup
  missing, `getElementById` would give null and the writes would throw.
- Timers and promises are discrete events with no real time. InferDone,
  InferFail and TimerFire require a call in flight or a pending timer for
  the event to complete. LoadOk and LoadFail require a pending load.
- Strings are sequences of Dafny `char`. JavaScript strings are UTF-16, and a
  lone surrogate that `JSON.parse` can produce (from `"\ud800"`) has no Dafny
  `char`, so such texts are not represented.
- Numbers are finite reals. A numeric literal out of range, such as `1e400`,
  parses to `Infinity` in JavaScript; that value has no `real`, so a count of
  `Infinity` (truthy, shown as "Count: Infinity") is not represented.
