# WikiHole exploration session, modelled in Dafny

WikiHole is a React front end over Wikipedia's HTTP API. The user starts by
picking one of five random topics, or asks for a random fact. Each accepted
page summary is appended to a growing list of facts. Under each fact the
first five related pages appear as buttons, and clicking one fetches that
page in turn. A depth counter shows how many facts have been collected.
Night mode and font size are display preferences.

This project models the state logic of that front end:

- `api.dfy` (module `Api`): the response shapes the components read. `Page` is an entry with a `title`. `Summary` holds `title`, `extract` and an optional thumbnail. `Fetch<T>` is the outcome of one request: `Received(value)` or `Failed`. `Failed` stands for a network error, or a response without `query`, `extract` or `pages`: reading a field of that missing object throws, and the handler catches and logs the error.
- `labels.dfy` (module `Labels`): the button label `title.replace(/_/g, ' ')`, and the list of buttons rendered for a page list. Each button shows a label and passes on the raw title.
- `related_fact.dfy` (module `RelatedFact`): the related-topics panel. `FirstFive` is `pages.slice(0, 5)`. The class `RelatedFacts` holds the `relatedFacts` state and updates it when a related-pages response completes.
- `random_topic.dfy` (module `RandomTopic`): the exploration session.
  - `SessionState` is the component's six state variables.
  - `Event` is one handler run: a response arriving or a button pressed.
  - `Step` is the effect of one handler on the state. `FollowUp` is the request that handler issues next.
  - `Run` folds `Step` over a sequence of events.
  - `AcceptedFacts` and `ClickedTitles` are reference definitions. They read, from the events alone, what a run must append.
  - The class `Session` keeps the same variables as fields. Each handler is a method, proved to take exactly one `Step`.

A request is never issued in the model. The caller delivers the response
as a parameter. A handler that would start another request (the topics
reload after a short topic extract, or the retry after a short random
extract) returns that request as a `Request` value instead.

Behaviour worth noting:
- `clickedFacts` is a list. Picking the same title twice records it twice.
- A failed related-pages fetch keeps the previous `relatedFacts`, which is `[]` until a fetch succeeds.
- `initialTopics` stays in the state after the first fact arrives; it is just no longer rendered.
- The font handlers add 2 while the size is below 24 and subtract 2 while it is above 12. On every size reachable from 16 this equals `clamp(size ± 2, 12, 24)`, as `IncreasedFont` and `DecreasedFont` prove.

## Model

| member | source | states |
|---|---|---|
| Labels.Label | src/frontend/components/RelatedFact.js:31 | the label has the title's length, contains no `_`, turns each `_` into a space and keeps every other character at its position |
| Labels.LabelIsIdentity | src/frontend/components/RandomTopic.js:114 | a title is shown unchanged exactly when it contains no `_` (both directions) |
| Labels.LabelIdempotent | src/frontend/components/RelatedFact.js:31 | applying the replacement to a label changes nothing |
| Labels.LabelAppend | src/frontend/components/RelatedFact.js:31 | the global replace distributes over concatenation: it works character by character |
| Labels.Buttons | src/frontend/components/RelatedFact.js:25-33 | one button per page, in order; each shows the page's label and targets the page's raw title |
| Labels.ClickPassesRawTitle | src/frontend/components/RelatedFact.js:29-31 | a click passes the raw title; it differs from the shown text exactly when the title contains `_`, and both have the same length |
| RelatedFact.Min | src/frontend/components/RelatedFact.js:13 | the result is one of the two arguments and is at most both |
| RelatedFact.FirstFive | src/frontend/components/RelatedFact.js:13 | the kept list is a prefix of the returned pages, of length min(5, number of pages); with at most 5 pages all are kept unchanged |
| RelatedFact.FirstFiveIdempotent | src/frontend/components/RelatedFact.js:13 | truncating an already truncated list changes nothing |
| RelatedFact.ButtonsOfPrefix | src/frontend/components/RelatedFact.js:13-33 | the buttons rendered for the kept pages are the first buttons that all returned pages would give |
| RelatedFact.RelatedFacts.constructor | src/frontend/components/RelatedFact.js:5-6 | the panel starts with no related pages |
| RelatedFact.RelatedFacts.FetchRelatedFacts | src/frontend/components/RelatedFact.js:10-17 | on success the list becomes the first five returned pages, a prefix of them and at most 5 long; on failure it keeps its previous value; the last received list is updated the same way |
| RelatedFact.RelatedFacts.RenderedButtons | src/frontend/components/RelatedFact.js:23-34 | at most 5 buttons, and they are the leading buttons of the last received page list |
| RelatedFact.RelatedFacts.Click | src/frontend/components/RelatedFact.js:29 | the title handed to `onFactClick` is the entry's raw title; its label is the text of that button |
| RandomTopic.LongEnough | src/frontend/components/RandomTopic.js:37 | the quality filter `extract.length > 50`, shared by both summary paths (line 55 too) |
| RandomTopic.Accepted | src/frontend/components/RandomTopic.js:55 | a summary response is appended exactly when it was received and passes the quality filter |
| RandomTopic.IncreasedFont | src/frontend/components/RandomTopic.js:89-91 | on every size in {12,14,…,24} the result stays in that set and equals clamp(size + 2, 12, 24); the size is unchanged exactly at 24 and above |
| RandomTopic.DecreasedFont | src/frontend/components/RandomTopic.js:94-96 | on every size in {12,14,…,24} the result stays in that set and equals clamp(size − 2, 12, 24); the size is unchanged exactly at 12 and below |
| RandomTopic.Clamp | src/frontend/components/RandomTopic.js:89-96 | the clamped value lies in the range, and a value already in the range is returned unchanged |
| RandomTopic.Initial | src/frontend/components/RandomTopic.js:11-16 | the initial `useState` values satisfy the session invariant and show the topic chooser |
| RandomTopic.PhaseOf | src/frontend/components/RandomTopic.js:99 | on a valid state the chooser (`facts.length === 0`) is shown exactly when depth is 0, and then no title has been recorded |
| RandomTopic.Step | src/frontend/components/RandomTopic.js:20-96 | one handler keeps the invariant, keeps earlier facts and titles as a prefix, adds at most one fact, records a title only on an accepted topic summary, and appends a fact only as that handler's accepted summary |
| RandomTopic.FollowUp | src/frontend/components/RandomTopic.js:41-59 | a follow-up request (topics reload at line 42, random retry at line 59) is issued exactly when a summary was received and rejected, and the handler then changed no state |
| RandomTopic.Run | src/frontend/components/RandomTopic.js:32-64 | a run of n handlers never shrinks the fact list and adds at most n facts |
| RandomTopic.AcceptedFacts | src/frontend/components/RandomTopic.js:37-38 | the reference list of accepted summaries has at most one entry per event |
| RandomTopic.ClickedTitles | src/frontend/components/RandomTopic.js:39 | the reference list of recorded titles has at most one entry per event |
| RandomTopic.LastTopics | src/frontend/components/RandomTopic.js:25 | the reference candidates are the starting list or the list of some received topics response |
| RandomTopic.RunSnoc | src/frontend/components/RandomTopic.js:20-96 | handling one more event after a run is one more handler step |
| RandomTopic.RunTopics | src/frontend/components/RandomTopic.js:25-27 | after any run the candidates are the list of the last received topics response; failures and other events keep them |
| RandomTopic.RunAppends | src/frontend/components/RandomTopic.js:32-64 | after any run of handlers, `facts` is the old list followed by exactly the accepted summaries in order; `clickedFacts` gains exactly the titles of accepted topic clicks; `depth` grows by one per accepted summary |
| RandomTopic.ClickedAtMostAccepted | src/frontend/components/RandomTopic.js:37-40 | each recorded title comes with a recorded fact, so a run never records more titles than facts |
| RandomTopic.NoTopicClicksNoTitles | src/frontend/components/RandomTopic.js:55-57 | a run with no topic clicks (random-fact attempts, topic lists, preferences) records no title |
| RandomTopic.RunKeepsInvariant | src/frontend/components/RandomTopic.js:12-16 | every run preserves `depth == |facts|`, `|clickedFacts| <= |facts|` and a font size in {12,14,…,24} |
| RandomTopic.ReachableInvariant | src/frontend/components/RandomTopic.js:11-16 | every state reachable from the initial `useState` values satisfies that invariant |
| RandomTopic.AppendOnly | src/frontend/components/RandomTopic.js:99 | earlier facts and titles stay a prefix, so once the fact list is shown the topic chooser never returns |
| RandomTopic.RepeatedIncrease | src/frontend/components/RandomTopic.js:89-91 | n increases from a valid size give min(size + 2n, 24): repeated presses at 24 stay at 24 |
| RandomTopic.RepeatedDecrease | src/frontend/components/RandomTopic.js:94-96 | n decreases from a valid size give max(size − 2n, 12): repeated presses at 12 stay at 12 |
| RandomTopic.FiveIncreasesFromDefault | src/frontend/components/RandomTopic.js:16 | five increases from the default 16 give 24, not 26 |
| RandomTopic.ToggleTwice | src/frontend/components/RandomTopic.js:82-83 | a toggle flips `isNightMode`; two toggles restore the whole state |
| RandomTopic.ChooseTopicScenario | src/frontend/components/RandomTopic.js:32-43 | picking "Ocean" from five loaded topics that include it: a long extract gives one fact, depth 1 and `["Ocean"]`; a short one leaves the session empty and in the chooser, and requests new topics |
| RandomTopic.RandomRetryScenario | src/frontend/components/RandomTopic.js:50-60 | three random attempts whose first two extracts are short append exactly the third summary, add one to depth and record no title |
| RandomTopic.Session.constructor | src/frontend/components/RandomTopic.js:11-16 | the session starts with no topics, facts or titles, day mode, depth 0 and font size 16 |
| RandomTopic.Session.FetchRandomTopics | src/frontend/components/RandomTopic.js:20-29 | a received list replaces `initialTopics` wholesale; a failure leaves it unchanged; nothing else changes |
| RandomTopic.Session.FetchFact | src/frontend/components/RandomTopic.js:32-47 | an extract over 50 characters appends the summary, appends `title` and adds 1 to depth; a short extract or a failure changes nothing; a short extract requests new topics |
| RandomTopic.Session.FetchRandomFact | src/frontend/components/RandomTopic.js:50-64 | an accepted summary is appended and depth grows by 1 while `clickedFacts` stays unchanged; a rejected one changes nothing and requests another attempt |
| RandomTopic.Session.ClickRelated | src/frontend/components/RandomTopic.js:183 | a related-topic click runs `fetchFact` on the entry's raw title: that raw title is what gets recorded, and a short extract returns the topics-reload request |
| RandomTopic.Session.ToggleNightMode | src/frontend/components/RandomTopic.js:82-83 | flips `isNightMode` and changes nothing else |
| RandomTopic.Session.IncreaseFontSize | src/frontend/components/RandomTopic.js:89-91 | adds 2 below 24, else no change; the invariant keeps the size in {12,…,24} |
| RandomTopic.Session.DecreaseFontSize | src/frontend/components/RandomTopic.js:94-96 | subtracts 2 above 12, else no change; the invariant keeps the size in {12,…,24} |
| RandomTopic.Session.IsSelecting | src/frontend/components/RandomTopic.js:99 | the chooser is shown exactly when depth is 0, and then no title has been recorded |
| RandomTopic.Session.TopicButtons | src/frontend/components/RandomTopic.js:108-116 | one starting-topic button per candidate; each passes the raw title and shows its label, the title with every `_` replaced by a space |

## Left out

- HTTP requests and URL construction (axios calls at RandomTopic.js:22-24, 34-36, 52-54 and RelatedFact.js:12): network I/O. Responses are method parameters.
- The recursive retry in `fetchRandomFact` (RandomTopic.js:59): how long it runs depends on the external service. One call models one attempt, and a short extract returns `RetryRandomFact`.
- Order of React state updates, and several requests in flight at once: asynchronous scheduling. Each completion is modelled as one sequential step.
- Scrolling to the newest fact, the `useRef` list, and the `night-mode`/`day-mode` classes on `document.body` (RandomTopic.js:17, 72-79, 84-85): DOM side effects.
- JSX layout, CSS classes, icons, and `console.error` logging: presentation and logging. A failed request is `Failed`, and it leaves the state unchanged.
- The mount effect that issues the first topics request (RandomTopic.js:67-69): this is I/O. Its completion is `Session.FetchRandomTopics`.
- The related panel re-fetching when its `title` prop changes (RelatedFact.js:20): each fact gets its own panel with a fixed title, so one panel is modelled per fact.
- A topics response whose `query` has no `random` list (RandomTopic.js:25): it does not throw. It stores `undefined`, and rendering at RandomTopic.js:108 then fails outside any handler. The model's received topics are always a list, so this case is not modelled.
- `RandomTopic.LongEnough`: JavaScript's `length` counts UTF-16 code units, while the model counts Dafny characters. The two differ for characters outside the Basic Multilingual Plane.
- src/frontend/App.js and webpack.config.js: component composition and build configuration, with no logic.
