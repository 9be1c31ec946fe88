# switchboard DevTools: a Dafny model of its settings and list logic

This project models the logic inside two React components of switchboard.

The first is the DevTools overlay (`src/DevTools.tsx`). The model covers:
- the hard-coded fallback tier of its settings (`getDefaults`);
- the minimal diff of non-default settings that "Copy Settings" puts into a shareable URL (`getChangedSettings`);
- the "Customize Endpoint" list, which offers only endpoints that have no custom response yet, and the handler that appends a default-filled custom response;
- the open/closed flag and its handlers (toggle, Escape, outside click);
- the edge classes that place the panel from its position string.

The second is the demo todo application (`src/demo-app/App.tsx`). The model covers:
- the optimistic "mark complete" list update;
- the append-and-clear of a successful add;
- the `status` field moving between loading, adding and idle;
- a recorded error being thrown on the next render when it is truthy (a rejection with a falsy reason is recorded but not thrown).

Files:
- `wrappers.dfy` (module `Wrappers`): `Option`, with `GetOr` as TypeScript's `??`, and `Result` for the outcome of an awaited call.
- `devtools.dfy` (module `DevTools`): the pure settings functions and lemmas, and class `Panel` for the component state that the event handlers change.
- `todo_app.dfy` (module `TodoApp`): the pure list transforms, rendering and lemmas, and class `App` for the component state.

Each handler that awaits a todo API call is split at the `await`. A `Start…` method does what runs before the call. A `Finish…` method receives the call's outcome as a parameter. The network itself is not modelled.

`getChangedSettings` never writes `closeOnOutsideClick` or `closeViaEscapeKey`, even when they differ from their defaults. This is despite the comment at `src/DevTools.tsx:124` saying that changed settings are copied. `ChangedSettingsRoundTrip` states the result: reading the URL back over the same defaults restores position, openByDefault, delay and the custom responses, but returns the two closing preferences at their defaults. Whether this is intended cannot be told from the code, so it is stated as the behaviour and not as a finding.

## Model

| member | source | states |
|---|---|---|
| `Wrappers.Option.GetOr` | src/DevTools.tsx:105-109 | `x ?? fallback`: the value when present, otherwise the fallback |
| `DevTools.IsCustomized` | src/DevTools.tsx:224 | `some(h => h.endpointName === e)` holds iff some custom response at some index has endpoint name e |
| `DevTools.OfferedEndpoints` | src/DevTools.tsx:221-228 | an endpoint is offered iff it is configured and no custom response has its name; the list is no longer than the configured one |
| `DevTools.OfferedEndpointsAppend` | src/DevTools.tsx:221-225 | the filter keeps order: filtering a concatenation is the concatenation of the filtered parts |
| `DevTools.OfferedEndpointsSingle` | src/DevTools.tsx:223-225 | a single endpoint is kept iff it is not customised (with the append lemma, this fixes the whole result) |
| `DevTools.AddCustomResponse` | src/DevTools.tsx:209-217 | appends exactly one entry, after the unchanged existing ones, for the chosen endpoint with delay 0, status 200 and an empty response (`customResponseDefaults`, lines 27-31) |
| `DevTools.OfferedAfterAdd` | src/DevTools.tsx:206-225 | after adding endpoint x, the offered list is the previous one with x removed, order kept: the selected option disappears |
| `DevTools.AddOfferedKeepsDistinct` | src/DevTools.tsx:209-225 | adding an endpoint taken from the offered list keeps the custom responses' endpoint names distinct |
| `DevTools.GetDefaults` | src/DevTools.tsx:103-112 | each setting equals the caller's preference when given; otherwise closeOnOutsideClick=false, closeViaEscapeKey=true, delay=0, openByDefault=true, position="top-left"; an absent `defaults` prop gives no preferences |
| `DevTools.GetDefaultsAllStated` | src/DevTools.tsx:103-112 | a caller who states every preference gets exactly those back |
| `DevTools.GetDefaultsNoneStated` | src/DevTools.tsx:103-112 | no prop and an empty prop both resolve to the hard-coded fallbacks |
| `DevTools.GetChangedSettings` | src/DevTools.tsx:126-135 | position, openByDefault and delay are present iff they differ from their defaults, and then hold the current value; customResponses is present iff non-empty, and then holds the whole list; the two closing preferences are never present |
| `DevTools.ChangedSettingsEmpty` | src/DevTools.tsx:126-135 | the diff is empty iff position, openByDefault and delay are at their defaults and there are no custom responses |
| `DevTools.ChangedSettingsRoundTrip` | src/DevTools.tsx:124-135 | reading the diff back over the same defaults restores position, openByDefault, delay and custom responses; the closing preferences come back as their defaults |
| `DevTools.ChangedSettingsMinimal` | src/DevTools.tsx:124-135 | every key present carries a value different from what its absence reads as |
| `DevTools.Contains` | src/DevTools.tsx:173-176 | `s.includes(t)` is true iff t occurs in s at some index |
| `DevTools.PositionFlags` | src/DevTools.tsx:172-177 | bottom-0, top-0, right-0 and left-0 are each set iff the position contains "bottom", "top", "right" or "left" |
| `DevTools.SelectablePositionFlags` | src/DevTools.tsx:253-256 | for each of the four selectable positions exactly one vertical and one horizontal flag is set, and they are the edges the position names |
| `DevTools.FallbackPositionSelectable` | src/DevTools.tsx:109 | the fallback position "top-left" is one of the selectable positions |
| `DevTools.Panel.constructor` | src/DevTools.tsx:66-97 | on first mount with nothing in the URL or in storage, each setting takes its default, there are no custom responses, and `isOpen` starts as `openByDefault` |
| `DevTools.Panel.ChangedSettings` | src/DevTools.tsx:126-135 | the panel's URL diff is empty iff its URL-carried settings are all at their defaults |
| `DevTools.Panel.Offered` | src/DevTools.tsx:221-225 | the panel offers exactly its configured endpoints that are not customised |
| `DevTools.Panel.Flags` | src/DevTools.tsx:172-177 | each of the panel's edge classes is set iff its position contains that edge's word; a selectable position sets exactly one vertical and one horizontal edge |
| `DevTools.Panel.ToggleOpen` | src/DevTools.tsx:122 | toggling negates `isOpen` |
| `DevTools.Panel.PressEscape` | src/DevTools.tsx:114-116 | Escape sets `isOpen` to false when `closeViaEscapeKey` holds, and otherwise leaves it unchanged |
| `DevTools.Panel.ClickOutside` | src/DevTools.tsx:118-120 | an outside click sets `isOpen` to false when `closeOnOutsideClick` holds, and otherwise leaves it unchanged |
| `DevTools.Panel.SelectEndpoint` | src/DevTools.tsx:208-218 | appends one default-filled custom response; choosing an offered endpoint keeps names distinct; the chosen endpoint leaves the offered list |
| `DevTools.Panel.SetDelay` | src/DevTools.tsx:198 | the "Global Delay" input sets the delay |
| `DevTools.Panel.SetPosition` | src/DevTools.tsx:249-251 | the "Position" select sets the position |
| `DevTools.Panel.ToggleOpenByDefault` | src/DevTools.tsx:264 | the checkbox negates `openByDefault` and leaves `isOpen` alone |
| `DevTools.Panel.ToggleCloseViaEscapeKey` | src/DevTools.tsx:273 | the checkbox negates `closeViaEscapeKey` |
| `DevTools.Panel.ToggleCloseOnOutsideClick` | src/DevTools.tsx:282 | the checkbox negates `closeOnOutsideClick` |
| `TodoApp.MarkCompleted` | src/demo-app/App.tsx:53-57 | same length; a todo whose id matches ends completed with its id and text kept; every other todo is returned unchanged |
| `TodoApp.MarkCompletedKeepsIds` | src/demo-app/App.tsx:53-57 | the result has the same ids in the same order |
| `TodoApp.MarkCompletedNoMatch` | src/demo-app/App.tsx:55 | when no id matches, the list is unchanged |
| `TodoApp.MarkCompletedIdempotent` | src/demo-app/App.tsx:53-57 | marking the same id twice equals marking it once |
| `TodoApp.MarkCompletedCommutes` | src/demo-app/App.tsx:53-57 | marking two ids in either order gives the same list |
| `TodoApp.Render` | src/demo-app/App.tsx:64-93 | render fails iff a truthy error is recorded, and fails with that error; otherwise (no error or a falsy one) it shows a spinner iff loading, and the list with the welcome line iff it is empty, and "Adding..." on the button iff adding |
| `TodoApp.App.View` | src/demo-app/App.tsx:64-93 | the component's current render throws iff its recorded error is an `Error` object, and throws that error; otherwise it shows a spinner iff loading |
| `TodoApp.App.constructor` | src/demo-app/App.tsx:16-19 | status starts as loading, with empty input, no todos and no error |
| `TodoApp.App.StartFetch` | src/demo-app/App.tsx:22-23 | fetching sets the status to loading |
| `TodoApp.App.FinishFetch` | src/demo-app/App.tsx:24-31 | the fetched list replaces the todos, or the error is recorded with the todos kept; the status ends idle either way |
| `TodoApp.App.StartAdd` | src/demo-app/App.tsx:38-40 | adding sets the status to adding and submits the current input text |
| `TodoApp.App.FinishAdd` | src/demo-app/App.tsx:40-47 | on success the saved todo is appended after the unchanged earlier todos and the input is cleared; on failure the error is recorded and list and input are kept; the status ends idle either way |
| `TodoApp.App.MarkComplete` | src/demo-app/App.tsx:50-57 | the optimistic update replaces the todos by `MarkCompleted` of them |
| `TodoApp.App.FinishMarkComplete` | src/demo-app/App.tsx:58-61 | a rejected call records its error; the optimistic update is not rolled back |
| `TodoApp.App.SetTodo` | src/demo-app/App.tsx:84 | the input's change handler sets the input text |
| `TodoApp.FailedFetchThrows` | src/demo-app/App.tsx:21-64 | after a fetch rejected with reason e, the status is idle, e is recorded, and the next render throws e iff e is truthy |

## Left out

- The URL and storage tiers of the settings precedence (URL over storage over default). They live in `useDevToolsState`, which is not part of this model. `Panel`'s constructor therefore models a first mount with nothing persisted. `ReadUrlConfig` is the reading of a URL over the defaults that the round-trip lemma uses. It is a reference reading, not a model of that hook.
- `DevToolsConfig`, the type of the URL diff, is not part of this model. `UrlConfig` gives it one optional key per setting.
- `buildUrl`, `writeToClipboard`, `useWorker` and `useOutsideClick` are not part of this model. They wrap URL encoding, the clipboard, the mock service worker and DOM events. Their effects appear only as the handler methods they trigger.
- `alert`, `localStorage.clear()` and `window.location.reload()`: browser side effects.
- `parseInt` of the delay input: `delay` is an unbounded integer. A non-numeric input, which gives `NaN` in the source, is not modelled.
- Editing or removing a custom response: this happens in `HttpSettingForm`, which is not part of this model. `Panel.Valid` (distinct endpoint names) is therefore shown to be preserved only by `SelectEndpoint`.
- JSX, `clsx` class composition beyond the four edge flags, the `ErrorBoundary`, and the `isReady` gate: view plumbing.
- The network calls `getTodos`, `addTodo` and `markTodoComplete`: only their outcome reaches the model, as a parameter of the `Finish…` methods. A rejection reason is either an `Error` object or one falsy value standing for all of `undefined`, `null`, `""`, `0` and the rest. The model does not tell the falsy values apart, nor truthy non-`Error` values (such as a thrown string) from `Error` objects; both are thrown on render alike.
- React's render timing. The model applies handlers one after another. It does not capture that `markComplete` maps the `todos` of the render that created its closure, which can be stale if an add finished since.
- The `Todo` type is not part of this model. `Todo` carries the three fields the component reads: `id`, `todo` and `completed`.
- `src/demo-app/AppWithDevTools.tsx`, `src/components/CopySettingsButton.tsx` and `src/main.tsx`: wiring code, a timed label reset, and an environment-gated render bootstrap.
