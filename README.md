# hmd-link hooks: link preview and countdown

A model of the local logic in `src/util/hooks.jsx` of a small link-sharing
room page. Three parts are modelled:

- **Preview target** (`PreviewTarget`). `setTarget` adds `http://` in front
  of a URL unless the URL already contains `http://` or `https://`. The
  scheme test is an unanchored regular expression, so the scheme may appear
  anywhere in the string.
- **Link preview** (`LinkPreview`). The `usePreview` effect turns the preview
  endpoint's answer into a `{title, description, url, thumbnail}` record.
  Each field has a fixed fallback, and every failure gives one fixed record.
  `PreviewHook` holds the hook's `target` and `data` state.
- **Countdown** (`Countdown`). `useCountdown` holds `timeLeft`, the running
  interval and `endTime`. It changes on `setEndTime`, on each interval tick
  and on `clearTimer`, and it calls `onComplete` when a running timer reaches
  zero. Pure step functions (`AfterSetEnd`, `AfterTick`, `Cleared`,
  `Settle`) specify the operations. The `CountdownHook` class implements them
  with fields and methods, and every method is proved equal to its step
  function.

The clock (`Date.now()`) is a `now` parameter in milliseconds. The HTTP
request's outcome is a `Response` value. Each interval callback is an
explicit `Tick`.

Modelling choices, where the JavaScript semantics matter:

- **JavaScript truthiness.**
  - A missing string and the empty string are falsy (`Truthy`).
  - An end time of `null` or `0` is falsy (`IsSet`).
  - `getTimeLeft` returns the falsy end time itself, so an end time of `0`
    gives `0`.
- **Setting an equal state value.** Setting a state variable to the value it
  already holds does not re-run the effects that depend on it:
  - Setting the same preview target again does not fetch a new preview.
  - Setting the same end time again does nothing.
- **Stale interval closure.** The interval callback keeps the end time it
  captured when it was started. `setEndTime(null)` or `setEndTime(0)` stores
  the new value but leaves a running interval counting toward the old
  deadline. So `timer` carries its captured deadline.
- **The URL fallback at line 133.** A scraped page without a URL is meant to
  keep its fields and take the target as its URL. As written it ends in the
  failure record instead (see Findings). `BuildPreviewAsWritten` models the
  code as written, and `BuildPreview` models the intended behaviour.
  `PreviewHook` uses `BuildPreview`.

## Model

| member | source | states |
|---|---|---|
| PreviewTarget.ContainsIff | src/util/hooks.jsx:113 | the left-to-right scan used for the regular expression finds the pattern exactly when it occurs at some position (both directions) |
| PreviewTarget.Normalise | src/util/hooks.jsx:112-116 | the target equals the input exactly when the input contains `http://` or `https://` somewhere; otherwise it is `http://` + input; it always ends with the input and always carries a scheme |
| PreviewTarget.NormaliseIdempotent | src/util/hooks.jsx:113-115 | normalising an already normalised target returns it unchanged |
| PreviewTarget.UnanchoredScheme | src/util/hooks.jsx:113 | a scheme that occurs only after other text (`ftp://a/?u=http://b`) suppresses the prefix, because the pattern is not anchored |
| PreviewTarget.UpperCaseSchemeIsPrefixed | src/util/hooks.jsx:113 | the match is case-sensitive: `HTTP://a` becomes `http://HTTP://a` |
| LinkPreview.FirstTruthy | src/util/hooks.jsx:131-133 | a JavaScript `\|\|` chain returns one of the truthy candidates or the final default, and it is never empty when the default is not |
| LinkPreview.FirstTruthyPicksFirst | src/util/hooks.jsx:131 | the chain returns the first truthy candidate, whatever follows it |
| LinkPreview.FirstTruthyNone | src/util/hooks.jsx:131-133 | with no truthy candidate the chain returns the default |
| LinkPreview.Thumbnail | src/util/hooks.jsx:121-130 | the thumbnail is the first image when images is present and non-empty; else the second favicon when there are at least two; else the constant picsum URL; it is always a scraped picture or that constant |
| LinkPreview.Title | src/util/hooks.jsx:131 | the title is never empty and is the site name, the page title or `(No title)` |
| LinkPreview.TitleOrder | src/util/hooks.jsx:131 | the site name wins over the page title, and the page title wins over `(No title)`, with empty strings skipped |
| LinkPreview.Description | src/util/hooks.jsx:132 | the description is empty exactly when the scraped one is missing or empty, and is otherwise the scraped one |
| LinkPreview.Fields | src/util/hooks.jsx:127-133 | the built record has a non-empty title, and its URL is the scraped URL when that is truthy and the target otherwise |
| LinkPreview.BuildPreviewAsWritten | src/util/hooks.jsx:121-140 | as written: a failed request, a null body and a page without a URL all give exactly `{url: target, title: '(No preview)', description: '', thumbnail: fallback}`; the last case is caused by the throwing `console.warning` call; a page with a URL gives its title, description, thumbnail and URL |
| LinkPreview.BuildPreview | src/util/hooks.jsx:121-140 | as intended: only a failed request or a null body gives the failure record; a page keeps its title, description and thumbnail, and its URL is the scraped URL when present and falls back to the target otherwise; the title is never empty; the URL is non-empty when the target is |
| LinkPreview.AsWrittenAgreesWhenUrlPresent | src/util/hooks.jsx:133-134 | the two versions agree on every response except a page without a URL |
| LinkPreview.MissingUrlDiscardsPage | src/util/hooks.jsx:133-139 | a page named `Example` without a URL shows `(No preview)` as written, and shows its own fields with the target as URL as intended |
| LinkPreview.PreviewHook.constructor | src/util/hooks.jsx:109-110 | the hook starts with no target and no preview |
| LinkPreview.PreviewHook.SetTarget | src/util/hooks.jsx:112-142 | the target becomes the normalised URL; the preview is rebuilt from the response exactly when the target changed and is otherwise kept; there is never a preview without a target, and every preview has a title |
| Countdown.Remaining | src/util/hooks.jsx:152 | the clamped subtraction is the larger of `end - now` and 0 |
| Countdown.TimeLeftAt | src/util/hooks.jsx:151-153 | `getTimeLeft` is unset exactly when the end time is unset and is never negative; an end time of 0 gives 0; for a truthy end time it equals `end - now` before the deadline and 0 at or after it |
| Countdown.TimeLeftNonIncreasing | src/util/hooks.jsx:152 | the remaining time never grows as the clock advances |
| Countdown.Cleared | src/util/hooks.jsx:162-166 | clearing leaves no time left and no timer, keeps the end time, and gives a settled state |
| Countdown.ClearedIdempotent | src/util/hooks.jsx:162-166 | clearing twice is the same as clearing once |
| Countdown.Settle | src/util/hooks.jsx:155-160 | `onComplete` fires exactly when a timer is running and no time is left; it then clears the timer, and otherwise nothing changes |
| Countdown.AfterSetEnd | src/util/hooks.jsx:168-177 | setting the same end time does nothing; a falsy one is stored and leaves a running interval alone; a truthy new one replaces any timer with one counting down to it, and fires `onComplete` at once, leaving nothing running, exactly when it is already past; settledness is preserved |
| Countdown.AfterTick | src/util/hooks.jsx:172-174 | a tick without a timer does nothing; with a timer it fires exactly when `now` has reached the captured deadline, and then leaves the cleared state (no timer, no time left); before that it sets the time left to the time until that deadline and keeps the timer |
| Countdown.Step | src/util/hooks.jsx:155-177 | every event keeps the state settled; clearing never fires `onComplete` |
| Countdown.StepBound | src/util/hooks.jsx:155-177 | one event fires `onComplete` only by stopping a running timer, and only a truthy end time starts one |
| Countdown.CompletionsBounded | src/util/hooks.jsx:155-177 | over any sequence of events, completions plus a still-running timer are at most the timer running at the start plus the truthy end times set |
| Countdown.CompletesAtMostOncePerStart | src/util/hooks.jsx:155-177 | from mount, `onComplete` fires at most once per truthy end time set |
| Countdown.RunKeepsInv | src/util/hooks.jsx:155-177 | any sequence of events keeps the time left non-negative and a running timer with time left |
| Countdown.PastDeadlineCompletesAtOnce | src/util/hooks.jsx:155-177 | setting an end time that is already past fires `onComplete` once on that step and leaves nothing running |
| Countdown.FutureDeadlineCompletesOnLateTick | src/util/hooks.jsx:155-177 | a timer set for a future deadline and ticked at or after it completes exactly once and leaves nothing running |
| Countdown.CountdownHook.constructor | src/util/hooks.jsx:147-149 | the hook starts with no time left, no timer and no end time |
| Countdown.CountdownHook.ClearTimer | src/util/hooks.jsx:162-166 | the fields become `Cleared` of the old state |
| Countdown.CountdownHook.CompleteIfDue | src/util/hooks.jsx:155-160 | the fields and the fired flag are those of `Settle` on the old state |
| Countdown.CountdownHook.SetEndTime | src/util/hooks.jsx:168-177 | the fields and the fired flag are those of `AfterSetEnd` on the old state; the state stays settled |
| Countdown.CountdownHook.Tick | src/util/hooks.jsx:172-174 | the fields and the fired flag are those of `AfterTick` on the old state, including the cleared state after a completing tick; the state stays settled |

## Left out

- The Firebase set-up and `useUser` (src/util/hooks.jsx:8-33): a custom-token sign-in with an external service.
- `useData` and `useDoc` (src/util/hooks.jsx:35-106): realtime-database subscriptions, writes and deletes. Their only local content is building the payloads `{url, timestamp}` and `{url, expires: now + 600000}`.
- The HTTP calls (src/util/hooks.jsx:26, 124): their outcome is the `Response` parameter.
- Asynchrony in `usePreview`. A response is applied at once, in the same call that changes the target. Responses arriving out of order for earlier targets are not modelled.
- Preact's scheduling. Effects run in one step right after the state change that triggers them. Interval timing is not modelled, and neither is `clearInterval` on an interval handle. A timer is present or absent, with its captured deadline.
- `console.log` output. It has no effect on the state.
- JavaScript values of other types in the scraped page: a number where a string is expected, or a non-array `images`. NaN as an end time is not modelled either.
- `LinkPreview.PreviewHook.SetTarget` uses the corrected mapping `BuildPreview`, not the code as written (see Findings).
- webpack.config.js and src/index.jsx: build configuration and page rendering.

## Findings

| source | as written | input that shows it | evidently intended | confidence | as-written member | corrected member |
|---|---|---|---|---|---|---|
| src/util/hooks.jsx:133-134 | when the scraped page has no URL, `console.warning(...)` is called; `console` has no `warning` method, so the call throws, and the catch block replaces the computed record with the `(No preview)` record; the `preview.url \|\| target` fallback never reaches the page | a page `{siteName: "Example", description: "A page", images: ["https://e.org/a.png"]}` with no `url`, for target `http://e.org` | log a warning (`console.warn`) and show the computed record with the target as its URL | high; not executed | LinkPreview.BuildPreviewAsWritten | LinkPreview.BuildPreview |
