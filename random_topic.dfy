/** The exploration session kept by the `RandomTopic` component
    (src/frontend/components/RandomTopic.js): the candidate topics, the
    append-only list of facts, the titles the user clicked, the depth
    counter and the display preferences.

    `SessionState` and `Step` give the effect of each completion handler
    as a function of the previous state and the response; the class
    `Session` holds the same state in fields and its methods are proved
    to make exactly that step. */
module RandomTopic {
  import opened Api
  import opened Labels
  import RelatedFact

  /** A summary is accepted only when its extract has more than 50 characters. */
  const MinExtractLength: nat := 50

  const DefaultFontSize: int := 16
  const MinFontSize: int := 12
  const MaxFontSize: int := 24
  const FontStep: int := 2

  predicate LongEnough(s: Summary) {
    |s.extract| > MinExtractLength
  }

  /** A summary response that a handler appends. */
  predicate Accepted(response: Fetch<Summary>) {
    response.Received? && LongEnough(response.value)
  }

  /** The font sizes reachable from the default: 12, 14, ..., 24. */
  predicate ValidFontSize(n: int) {
    MinFontSize <= n <= MaxFontSize && n % 2 == 0
  }

  function Clamp(n: int, lo: int, hi: int): (r: int)
    ensures lo <= hi ==> lo <= r <= hi
    ensures lo <= n <= hi ==> r == n
  {
    if n < lo then lo else if n > hi then hi else n
  }

  /** `increaseFontSize`: grow by 2 while below 24. On every reachable
      size this is `clamp(size + 2, 12, 24)`. */
  function IncreasedFont(size: int): (r: int)
    ensures ValidFontSize(size) ==> ValidFontSize(r) && r == Clamp(size + FontStep, MinFontSize, MaxFontSize)
    ensures r == size <==> size >= MaxFontSize
  {
    if size < MaxFontSize then size + FontStep else size
  }

  /** `decreaseFontSize`: shrink by 2 while above 12. On every reachable
      size this is `clamp(size - 2, 12, 24)`. */
  function DecreasedFont(size: int): (r: int)
    ensures ValidFontSize(size) ==> ValidFontSize(r) && r == Clamp(size - FontStep, MinFontSize, MaxFontSize)
    ensures r == size <==> size <= MinFontSize
  {
    if size > MinFontSize then size - FontStep else size
  }

  /** The component's state variables (lines 11-16). */
  datatype SessionState = SessionState(
    initialTopics: seq<Page>,
    facts: seq<Summary>,
    clickedFacts: seq<string>,
    isNightMode: bool,
    depth: int,
    fontSize: int)

  /** The state on mount: every `useState` initial value. */
  function Initial(): (s: SessionState)
    ensures Inv(s) && PhaseOf(s) == Selecting
  {
    SessionState([], [], [], false, 0, DefaultFontSize)
  }

  /** What each reachable state satisfies. */
  ghost predicate Inv(s: SessionState) {
    s.depth == |s.facts| && |s.clickedFacts| <= |s.facts| && ValidFontSize(s.fontSize)
  }

  /** The two screens: the topic chooser while there are no facts
      (`facts.length === 0`), the list of facts afterwards. */
  datatype Phase = Selecting | Exploring

  function PhaseOf(s: SessionState): (p: Phase)
    ensures Inv(s) ==> (p == Selecting <==> s.depth == 0)
    ensures p == Selecting ==> Inv(s) ==> s.clickedFacts == []
  {
    if |s.facts| == 0 then Selecting else Exploring
  }

  /** One handler run: a response arriving or a button pressed. */
  datatype Event =
    | TopicsFetched(topics: Fetch<seq<Page>>)
    | TopicSummary(title: string, summary: Fetch<Summary>)
    | RandomSummary(summary: Fetch<Summary>)
    | ToggleNight
    | IncreaseFont
    | DecreaseFont

  /** The request a handler issues next: `fetchFact` reloads the topics
      after a short extract, `fetchRandomFact` tries again. */
  datatype Request = NoRequest | RequestTopics | RetryRandomFact

  function Step(s: SessionState, e: Event): (r: SessionState)
    ensures Inv(s) ==> Inv(r)
    ensures s.facts <= r.facts && |r.facts| <= |s.facts| + 1
    ensures s.clickedFacts <= r.clickedFacts
    ensures r.clickedFacts != s.clickedFacts ==> e.TopicSummary? && Accepted(e.summary)
    ensures r.facts != s.facts ==> (e.TopicSummary? || e.RandomSummary?) && Accepted(e.summary) && r.facts == s.facts + [e.summary.value]
  {
    match e
    case TopicsFetched(r) =>
      if r.Received? then s.(initialTopics := r.value) else s
    case TopicSummary(title, r) =>
      if Accepted(r) then
        s.(facts := s.facts + [r.value], clickedFacts := s.clickedFacts + [title], depth := s.depth + 1)
      else s
    case RandomSummary(r) =>
      if Accepted(r) then s.(facts := s.facts + [r.value], depth := s.depth + 1) else s
    case ToggleNight => s.(isNightMode := !s.isNightMode)
    case IncreaseFont => s.(fontSize := IncreasedFont(s.fontSize))
    case DecreaseFont => s.(fontSize := DecreasedFont(s.fontSize))
  }

  /** A follow-up request is issued exactly by a summary handler that
      received a summary and rejected it, and then the handler left the
      state as it was. */
  function FollowUp(e: Event): (r: Request)
    ensures r != NoRequest <==> (e.TopicSummary? || e.RandomSummary?) && e.summary.Received? && !Accepted(e.summary)
    ensures r != NoRequest ==> forall s :: Step(s, e) == s
  {
    match e
    case TopicSummary(_, r) => if r.Received? && !LongEnough(r.value) then RequestTopics else NoRequest
    case RandomSummary(r) => if r.Received? && !LongEnough(r.value) then RetryRandomFact else NoRequest
    case _ => NoRequest
  }

  /** The state after handling `es` in order. */
  function Run(s: SessionState, es: seq<Event>): (r: SessionState)
    ensures |s.facts| <= |r.facts| <= |s.facts| + |es|
    decreases |es|
  {
    if es == [] then s else Run(Step(s, es[0]), es[1..])
  }

  /** Reference definitions: the facts and the clicked titles that a run
      contributes, read off the events alone. */
  function AcceptedFacts(es: seq<Event>): (r: seq<Summary>)
    ensures |r| <= |es|
  {
    if es == [] then []
    else
      var here := match es[0]
        case TopicSummary(_, r) => if Accepted(r) then [r.value] else []
        case RandomSummary(r) => if Accepted(r) then [r.value] else []
        case _ => [];
      here + AcceptedFacts(es[1..])
  }

  function ClickedTitles(es: seq<Event>): (r: seq<string>)
    ensures |r| <= |es|
  {
    if es == [] then []
    else
      var here := match es[0]
        case TopicSummary(title, r) => if Accepted(r) then [title] else []
        case _ => [];
      here + ClickedTitles(es[1..])
  }

  /** The candidates after `es`: the list of the last received topics
      response, or `topics` when none was received. */
  function LastTopics(topics: seq<Page>, es: seq<Event>): (r: seq<Page>)
    ensures r == topics || exists i :: 0 <= i < |es| && es[i].TopicsFetched? && es[i].topics == Received(r)
  {
    if es == [] then topics
    else
      var rest := LastTopics(topics, es[..|es| - 1]);
      match es[|es| - 1]
      case TopicsFetched(Received(t)) => t
      case _ => rest
  }

  /** The run appends exactly the accepted summaries, in order, records
      exactly the titles of accepted topic clicks, and counts one depth level
      per accepted summary. */
  lemma {:induction false} RunAppends(s: SessionState, es: seq<Event>)
    ensures Run(s, es).facts == s.facts + AcceptedFacts(es)
    ensures Run(s, es).clickedFacts == s.clickedFacts + ClickedTitles(es)
    ensures Run(s, es).depth == s.depth + |AcceptedFacts(es)|
    decreases |es|
  {
    if es != [] {
      RunAppends(Step(s, es[0]), es[1..]);
    }
  }

  /** Handling one more event is one more step. */
  lemma {:induction false} RunSnoc(s: SessionState, es: seq<Event>, e: Event)
    ensures Run(s, es + [e]) == Step(Run(s, es), e)
    decreases |es|
  {
    if es == [] {
      assert ([] + [e])[1..] == [];
    } else {
      assert (es + [e])[1..] == es[1..] + [e];
      RunSnoc(Step(s, es[0]), es[1..], e);
    }
  }

  /** The candidates after a run are the list of the last received
      topics response; a failed response or any other event keeps them. */
  lemma {:induction false} RunTopics(s: SessionState, es: seq<Event>)
    ensures Run(s, es).initialTopics == LastTopics(s.initialTopics, es)
    decreases |es|
  {
    if es != [] {
      var init := es[..|es| - 1];
      assert es == init + [es[|es| - 1]];
      RunSnoc(s, init, es[|es| - 1]);
      RunTopics(s, init);
    }
  }

  /** Only accepted topic clicks record titles, and each of them also
      records a fact. */
  lemma {:induction false} ClickedAtMostAccepted(es: seq<Event>)
    ensures |ClickedTitles(es)| <= |AcceptedFacts(es)|
  {
    if es != [] {
      ClickedAtMostAccepted(es[1..]);
    }
  }

  /** A run of random-fact attempts and preference changes never
      records a clicked title. */
  lemma {:induction false} NoTopicClicksNoTitles(es: seq<Event>)
    requires forall i :: 0 <= i < |es| ==> !es[i].TopicSummary?
    ensures ClickedTitles(es) == []
  {
    if es != [] {
      NoTopicClicksNoTitles(es[1..]);
    }
  }

  /** `depth == |facts|`, `|clickedFacts| <= |facts|` and the font range
      hold after every run that starts where they hold. */
  lemma {:induction false} RunKeepsInvariant(s: SessionState, es: seq<Event>)
    requires Inv(s)
    ensures Inv(Run(s, es))
    decreases |es|
  {
    if es != [] {
      RunKeepsInvariant(Step(s, es[0]), es[1..]);
    }
  }

  /** Every state reached from the mounted component satisfies `Inv`. */
  lemma ReachableInvariant(es: seq<Event>)
    ensures Inv(Run(Initial(), es))
  {
    RunKeepsInvariant(Initial(), es);
  }

  /** Facts and clicked titles only grow: earlier entries stay a prefix,
      so the topic chooser, once left, is never shown again. */
  lemma AppendOnly(s: SessionState, es: seq<Event>)
    ensures s.facts <= Run(s, es).facts
    ensures s.clickedFacts <= Run(s, es).clickedFacts
    ensures PhaseOf(s) == Exploring ==> PhaseOf(Run(s, es)) == Exploring
  {
    RunAppends(s, es);
  }

  function Repeat(e: Event, n: nat): (es: seq<Event>)
    ensures |es| == n
  {
    if n == 0 then [] else [e] + Repeat(e, n - 1)
  }

  /** `n` presses of the increase button from a reachable size reach
      `min(size + 2n, 24)` and stay there. */
  lemma {:induction false} RepeatedIncrease(s: SessionState, n: nat)
    requires ValidFontSize(s.fontSize)
    ensures Run(s, Repeat(IncreaseFont, n)).fontSize == Clamp(s.fontSize + FontStep * n, MinFontSize, MaxFontSize)
    decreases n
  {
    if n > 0 {
      assert Repeat(IncreaseFont, n)[1..] == Repeat(IncreaseFont, n - 1);
      RepeatedIncrease(Step(s, IncreaseFont), n - 1);
    }
  }

  /** `n` presses of the decrease button reach `max(size - 2n, 12)`. */
  lemma {:induction false} RepeatedDecrease(s: SessionState, n: nat)
    requires ValidFontSize(s.fontSize)
    ensures Run(s, Repeat(DecreaseFont, n)).fontSize == Clamp(s.fontSize - FontStep * n, MinFontSize, MaxFontSize)
    decreases n
  {
    if n > 0 {
      assert Repeat(DecreaseFont, n)[1..] == Repeat(DecreaseFont, n - 1);
      RepeatedDecrease(Step(s, DecreaseFont), n - 1);
    }
  }

  /** Five presses of the increase button from the default 16 give 24, not 26. */
  lemma FiveIncreasesFromDefault()
    ensures Run(Initial(), Repeat(IncreaseFont, 5)).fontSize == MaxFontSize
  {
    RepeatedIncrease(Initial(), 5);
  }

  /** Two toggles restore the night-mode flag, and nothing else moves. */
  lemma ToggleTwice(s: SessionState)
    ensures Step(s, ToggleNight).isNightMode == !s.isNightMode
    ensures Run(s, [ToggleNight, ToggleNight]) == s
  {
    assert [ToggleNight, ToggleNight][1..] == [ToggleNight];
  }

  /** Choosing "Ocean" among freshly loaded topics and getting a long
      extract: one fact, depth 1, "Ocean" recorded. A short extract
      instead leaves the session empty and asks for new topics. */
  lemma ChooseTopicScenario(topics: seq<Page>, summary: Summary)
    requires |topics| == 5 && Page("Ocean") in topics
    ensures LongEnough(summary) ==>
      var s := Run(Initial(), [TopicsFetched(Received(topics)), TopicSummary("Ocean", Received(summary))]);
      s.facts == [summary] && s.depth == 1 && s.clickedFacts == ["Ocean"] && PhaseOf(s) == Exploring
    ensures !LongEnough(summary) ==>
      var s := Run(Initial(), [TopicsFetched(Received(topics)), TopicSummary("Ocean", Received(summary))]);
      s.facts == [] && s.depth == 0 && s.initialTopics == topics && PhaseOf(s) == Selecting
      && FollowUp(TopicSummary("Ocean", Received(summary))) == RequestTopics
  {
    var es := [TopicsFetched(Received(topics)), TopicSummary("Ocean", Received(summary))];
    var s1 := Step(Initial(), es[0]);
    assert Run(Initial(), es) == Run(s1, es[1..]);
    assert Run(s1, es[1..]) == Step(s1, es[1]) by { assert es[1..][1..] == []; }
  }

  /** Three "New Random Fact" attempts, the first two too short: one fact
      appended, depth one more, clicked titles untouched. */
  lemma RandomRetryScenario(s: SessionState, a: Summary, b: Summary, c: Summary)
    requires !LongEnough(a) && !LongEnough(b) && LongEnough(c)
    ensures var t := Run(s, [RandomSummary(Received(a)), RandomSummary(Received(b)), RandomSummary(Received(c))]);
      t.facts == s.facts + [c] && t.depth == s.depth + 1 && t.clickedFacts == s.clickedFacts
  {
    var es := [RandomSummary(Received(a)), RandomSummary(Received(b)), RandomSummary(Received(c))];
    assert Run(s, es) == Run(s, es[1..]);
    assert Run(s, es[1..]) == Run(s, es[2..]) by { assert es[1..][1..] == es[2..]; }
    assert Run(s, es[2..]) == Step(s, es[2]) by { assert es[2..][1..] == []; }
  }

  /** The `RandomTopic` component's state, updated in place by its handlers. */
  class Session {
    var initialTopics: seq<Page>
    var facts: seq<Summary>
    var clickedFacts: seq<string>
    var isNightMode: bool
    var depth: int
    var fontSize: int

    ghost function State(): SessionState
      reads this
    {
      SessionState(initialTopics, facts, clickedFacts, isNightMode, depth, fontSize)
    }

    ghost predicate Valid()
      reads this
    {
      Inv(State())
    }

    /** Mounting: every state variable at its initial value. The mount
        effect then issues the first topics request, whose completion is
        `FetchRandomTopics`. */
    constructor ()
      ensures Valid() && State() == Initial()
    {
      initialTopics, facts, clickedFacts := [], [], [];
      isNightMode, depth, fontSize := false, 0, DefaultFontSize;
    }

    /** Completion of `fetchRandomTopics`: a received list replaces the
        candidates wholesale; a failure leaves them as they were. */
    method FetchRandomTopics(response: Fetch<seq<Page>>)
      requires Valid()
      modifies this
      ensures Valid() && State() == Step(old(State()), TopicsFetched(response))
      ensures State() == old(State()).(initialTopics := if response.Received? then response.value else old(initialTopics))
    {
      if response.Received? {
        initialTopics := response.value;
      }
    }

    /** Completion of `fetchFact(title)`: a long extract appends the
        summary, records `title` and deepens by one; a short one changes
        nothing and asks for a fresh set of topics; a failure changes
        nothing. */
    method FetchFact(title: string, response: Fetch<Summary>) returns (next: Request)
      requires Valid()
      modifies this
      ensures Valid() && State() == Step(old(State()), TopicSummary(title, response))
      ensures Accepted(response) ==>
        facts == old(facts) + [response.value] && clickedFacts == old(clickedFacts) + [title]
        && depth == old(depth) + 1
        && initialTopics == old(initialTopics) && isNightMode == old(isNightMode) && fontSize == old(fontSize)
      ensures !Accepted(response) ==> State() == old(State())
      ensures next == (if response.Received? && !LongEnough(response.value) then RequestTopics else NoRequest)
    {
      next := NoRequest;
      match response {
        case Received(summary) =>
          if |summary.extract| > MinExtractLength {
            facts := facts + [summary];
            clickedFacts := clickedFacts + [title];
            depth := depth + 1;
          } else {
            next := RequestTopics;
          }
        case Failed =>
      }
    }

    /** Completion of one `fetchRandomFact` attempt: a long extract
        appends the summary and deepens by one without recording a title;
        a short one changes nothing and asks for another attempt. */
    method FetchRandomFact(response: Fetch<Summary>) returns (next: Request)
      requires Valid()
      modifies this
      ensures Valid() && State() == Step(old(State()), RandomSummary(response))
      ensures Accepted(response) ==>
        facts == old(facts) + [response.value] && depth == old(depth) + 1
        && clickedFacts == old(clickedFacts)
        && initialTopics == old(initialTopics) && isNightMode == old(isNightMode) && fontSize == old(fontSize)
      ensures !Accepted(response) ==> State() == old(State())
      ensures next == (if response.Received? && !LongEnough(response.value) then RetryRandomFact else NoRequest)
    {
      next := NoRequest;
      match response {
        case Received(summary) =>
          if |summary.extract| > MinExtractLength {
            facts := facts + [summary];
            depth := depth + 1;
          } else {
            next := RetryRandomFact;
          }
        case Failed =>
      }
    }

    /** A related-topic button under a fact routes its raw title to
        `fetchFact`: on acceptance that raw title, not its label, is what
        `clickedFacts` records. */
    method ClickRelated(related: RelatedFact.RelatedFacts, i: nat, response: Fetch<Summary>) returns (next: Request)
      requires Valid() && i < |related.relatedFacts|
      modifies this
      ensures Valid()
      ensures State() == Step(old(State()), TopicSummary(related.relatedFacts[i].title, response))
      ensures Accepted(response) ==> clickedFacts == old(clickedFacts) + [related.relatedFacts[i].title]
      ensures next == FollowUp(TopicSummary(related.relatedFacts[i].title, response))
    {
      var title := related.Click(i);
      next := FetchFact(title, response);
    }

    method ToggleNightMode()
      requires Valid()
      modifies this
      ensures Valid() && State() == Step(old(State()), ToggleNight)
      ensures State() == old(State()).(isNightMode := !old(isNightMode))
    {
      isNightMode := !isNightMode;
    }

    method IncreaseFontSize()
      requires Valid()
      modifies this
      ensures Valid() && State() == Step(old(State()), IncreaseFont)
      ensures State() == old(State()).(fontSize := if old(fontSize) < MaxFontSize then old(fontSize) + FontStep else old(fontSize))
    {
      fontSize := if fontSize < MaxFontSize then fontSize + FontStep else fontSize;
    }

    method DecreaseFontSize()
      requires Valid()
      modifies this
      ensures Valid() && State() == Step(old(State()), DecreaseFont)
      ensures State() == old(State()).(fontSize := if old(fontSize) > MinFontSize then old(fontSize) - FontStep else old(fontSize))
    {
      fontSize := if fontSize > MinFontSize then fontSize - FontStep else fontSize;
    }

    /** The render test `facts.length === 0`: while it holds the depth
        counter reads 0 and no title has been recorded. */
    function IsSelecting(): (b: bool)
      reads this
      requires Valid()
      ensures b <==> depth == 0
      ensures b ==> clickedFacts == [] && PhaseOf(State()) == Selecting
      ensures !b ==> PhaseOf(State()) == Exploring
    {
      |facts| == 0
    }

    /** The starting-topic buttons (rendered while selecting): one per
        candidate, each showing its label and passing its raw title. */
    function TopicButtons(): (bs: seq<Button>)
      reads this
      ensures |bs| == |initialTopics|
      ensures forall i :: 0 <= i < |bs| ==> bs[i].target == initialTopics[i].title && bs[i].text == Label(initialTopics[i].title)
    {
      Buttons(initialTopics)
    }
  }

}
