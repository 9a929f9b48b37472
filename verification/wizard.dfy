/**
 * The wizard's state machine (App.tsx): nine pieces of state and the
 * handlers that update them. Each `await` of the two async handlers is split
 * into the synchronous part that issues a request and a completion event
 * that delivers its outcome; the content-generation service is an oracle
 * whose answers arrive as the arguments of those events.
 *
 * The requests carry no tag, so a completion updates whatever state is
 * current when it arrives. To say which completions can arrive at all, the
 * model keeps the requests in flight (with the arguments their closures
 * captured) in two multisets that the source does not have.
 */
module Wizard {
  import opened Types
  import HandleInput
  import TopicInput

  const GenerationError := "Sorry, something went wrong while generating content. Please try again."

  /** The arguments a request was issued with: the platform, handle and topic its closure captured. */
  datatype Query = Query(platform: Platform, handle: string, topic: string)

  /** The nine state fields of `App`, and the requests in flight. */
  datatype Snapshot = Snapshot(
    step: AppStep,
    platform: Option<Platform>,
    handle: string,
    topic: string,
    suggestions: seq<PostSuggestion>,
    nextSteps: seq<string>,
    isLoading: bool,
    isGeneratingNextSteps: bool,
    error: Option<string>,
    primaryPending: multiset<Query>,
    followUpPending: multiset<Query>)

  /** The `useState` initial values; nothing in flight. */
  const Initial := Snapshot(SELECT_PLATFORM, None, "", "", [], [], false, false, None, multiset{}, multiset{})

  datatype Event =
    | PlatformSelected(p: Platform)                              // handlePlatformSelect
    | HandleSubmitted(h: string)                                 // handleHandleSubmit
    | HandleConfirmed                                            // handleHandleConfirm
    | HandleEdited                                               // handleHandleEdit
    | BackPressed                                                // HandleInput's onBack
    | TopicSubmitted(t: string)                                  // handleGenerateContent, up to its first await
    | RegenerateRequested(p: Platform)                           // handleRegenerateForPlatform, up to its first await
    | ResetRequested                                             // handleReset
    | ContentArrived(q: Query, results: seq<PostSuggestion>)     // the suggestions request resolves
    | ContentFailed(q: Query)                                    // the suggestions request rejects
    | IdeasArrived(q: Query, ideas: seq<string>)                 // the follow-up request resolves
    | IdeasFailed(q: Query)                                      // the follow-up request rejects

  /** A completion can only arrive for a request that is in flight; user events always can. */
  predicate Possible(s: Snapshot, e: Event) {
    match e
    case ContentArrived(q, _) => q in s.primaryPending
    case ContentFailed(q) => q in s.primaryPending
    case IdeasArrived(q, _) => q in s.followUpPending
    case IdeasFailed(q) => q in s.followUpPending
    case _ => true
  }

  /**
   * The synchronous prologue shared by both async handlers, which issues the
   * suggestions request `q`: the spinner shows, every trace of the previous
   * outcome is gone, one more copy of `q` is in flight, and the choices and
   * the follow-up request are left alone.
   */
  function StartGeneration(s: Snapshot, q: Query): (r: Snapshot)
    ensures r.step == GENERATING && r.isLoading
    ensures r.suggestions == [] && r.nextSteps == [] && r.error == None
    ensures q in r.primaryPending && r.primaryPending[q] == s.primaryPending[q] + 1
    ensures forall q' :: q' != q ==> r.primaryPending[q'] == s.primaryPending[q']
    ensures r.platform == s.platform && r.handle == s.handle && r.topic == s.topic
    ensures r.isGeneratingNextSteps == s.isGeneratingNextSteps && r.followUpPending == s.followUpPending
  {
    s.(isLoading := true, error := None, suggestions := [], nextSteps := [], step := GENERATING,
       primaryPending := s.primaryPending + multiset{q})
  }

  /** The completion events, which arrive from the service rather than from a view. */
  predicate IsCompletion(e: Event) {
    e.ContentArrived? || e.ContentFailed? || e.IdeasArrived? || e.IdeasFailed?
  }

  /**
   * The state after event `e`, as the corresponding handler leaves it. Each
   * piece of state has few writers: the platform is set only by selection,
   * regeneration and reset; the handle only by submission and reset; the
   * topic only by generation and reset; results appear only when content
   * arrives; and the only error ever set is the fixed one, on a failed
   * request.
   */
  function Apply(s: Snapshot, e: Event): (r: Snapshot)
    requires Possible(s, e)
    ensures r.platform != s.platform ==> e.PlatformSelected? || e.RegenerateRequested? || e.ResetRequested?
    ensures r.handle != s.handle ==> e.HandleSubmitted? || e.ResetRequested?
    ensures r.topic != s.topic ==> e.TopicSubmitted? || e.ResetRequested?
    ensures r.suggestions != [] && r.suggestions != s.suggestions ==> e.ContentArrived?
    ensures r.error.Some? && r.error != s.error ==> e.ContentFailed? && r.error == Some(GenerationError)
  {
    match e
    case PlatformSelected(p) => s.(platform := Some(p), step := ENTER_HANDLE)
    case HandleSubmitted(h) => s.(handle := h, step := CONFIRM_HANDLE)
    case HandleConfirmed => s.(step := ENTER_TOPIC)
    case HandleEdited => s.(step := ENTER_HANDLE)
    case BackPressed => s.(step := SELECT_PLATFORM)
    case TopicSubmitted(t) =>
      if s.platform.None? || s.handle == "" then s
      else StartGeneration(s.(topic := t), Query(s.platform.value, s.handle, t))
    case RegenerateRequested(p) =>
      if s.handle == "" || s.topic == "" then s
      else StartGeneration(s.(platform := Some(p)), Query(p, s.handle, s.topic))
    case ResetRequested =>
      s.(step := SELECT_PLATFORM, platform := None, handle := "", topic := "",
         suggestions := [], nextSteps := [], error := None)
    case ContentArrived(q, results) =>
      s.(suggestions := results, step := SHOW_RESULTS, isLoading := false, isGeneratingNextSteps := true,
         primaryPending := s.primaryPending - multiset{q}, followUpPending := s.followUpPending + multiset{q})
    case ContentFailed(q) =>
      s.(error := Some(GenerationError), step := ENTER_TOPIC, isLoading := false,
         primaryPending := s.primaryPending - multiset{q})
    case IdeasArrived(q, ideas) =>
      s.(nextSteps := ideas, isGeneratingNextSteps := false, followUpPending := s.followUpPending - multiset{q})
    case IdeasFailed(q) =>
      s.(nextSteps := [], isGeneratingNextSteps := false, followUpPending := s.followUpPending - multiset{q})
  }

  /** A reset clears the seven fields `handleReset` sets and nothing else. */
  lemma ResetClears(s: Snapshot)
    ensures Apply(s, ResetRequested) == s.(step := SELECT_PLATFORM, platform := None, handle := "", topic := "",
                                           suggestions := [], nextSteps := [], error := None)
  {
  }

  /** The numeric value of an `AppStep` member, in declaration order. */
  function StepIndex(step: AppStep): (i: nat)
    ensures i < 6
    ensures i == 0 <==> step == SELECT_PLATFORM
    ensures i == 5 <==> step == SHOW_RESULTS
  {
    match step
    case SELECT_PLATFORM => 0
    case ENTER_HANDLE => 1
    case CONFIRM_HANDLE => 2
    case ENTER_TOPIC => 3
    case GENERATING => 4
    case SHOW_RESULTS => 5
  }

  /** The steps are numbered in declaration order, so `StepIndex` is one-to-one onto 0..5. */
  lemma StepOrder()
    ensures StepIndex(SELECT_PLATFORM) < StepIndex(ENTER_HANDLE) < StepIndex(CONFIRM_HANDLE) <
            StepIndex(ENTER_TOPIC) < StepIndex(GENERATING) < StepIndex(SHOW_RESULTS)
  {
  }

  /**
   * The events the view rendered for the current step can raise (`renderStep`),
   * with the values those views hand over; completions arrive whenever their
   * request is in flight. `onRegenerate` is passed to the results view, whose
   * props do not declare it, so that view never raises it.
   */
  predicate Offered(s: Snapshot, e: Event): (offered: bool)
    ensures offered && !IsCompletion(e) ==> s.step != GENERATING
    ensures offered && !IsCompletion(e) && s.step == SHOW_RESULTS ==> e == ResetRequested
    ensures e.RegenerateRequested? ==> !offered
  {
    match e
    case PlatformSelected(_) => s.step == SELECT_PLATFORM
    case HandleSubmitted(h) => s.step == ENTER_HANDLE && s.platform.Some? && HandleInput.Emits(s.platform.value, h)
    case HandleConfirmed => s.step == CONFIRM_HANDLE
    case HandleEdited => s.step == CONFIRM_HANDLE || s.step == ENTER_TOPIC
    case BackPressed => s.step == ENTER_HANDLE
    case TopicSubmitted(t) => s.step == ENTER_TOPIC && TopicInput.Submittable(t)
    case RegenerateRequested(_) => false
    case ResetRequested => s.step == SHOW_RESULTS
    case _ => Possible(s, e)
  }

  /**
   * What holds in every state the user can reach. The first conjunct is what
   * the `platform!` assertions of `renderStep` rely on.
   */
  ghost predicate Inv(s: Snapshot) {
    && (s.step != SELECT_PLATFORM ==> s.platform.Some?)
    && (StepIndex(s.step) >= StepIndex(CONFIRM_HANDLE) ==> HandleInput.Emits(s.platform.value, s.handle))
    && (StepIndex(s.step) >= StepIndex(GENERATING) ==> TopicInput.Submittable(s.topic))
    && (s.isLoading <==> s.step == GENERATING)
    && (s.step == GENERATING ==> s.primaryPending == multiset{Query(s.platform.value, s.handle, s.topic)})
    && (s.step != GENERATING ==> s.primaryPending == multiset{})
    && (s.isGeneratingNextSteps ==> s.followUpPending != multiset{})
    && (s.error.Some? ==> s.error.value == GenerationError && s.suggestions == [] &&
                          StepIndex(s.step) < StepIndex(GENERATING))
    && (s.suggestions != [] ==> s.step == SHOW_RESULTS)
  }

  lemma InitialInv()
    ensures Inv(Initial)
  {
  }

  /** Every offered event keeps the invariant. */
  lemma {:induction false} InvPreserved(s: Snapshot, e: Event)
    requires Inv(s) && Offered(s, e)
    ensures Possible(s, e) && Inv(Apply(s, e))
  {
    match e
    case ContentArrived(q, results) =>
      assert s.step == GENERATING;
    case ContentFailed(q) =>
      assert s.step == GENERATING;
    case _ =>
  }

  /**
   * Every event of `es` is offered in the state it meets (an offered event is
   * always possible; the conjunct says so for `Apply`'s precondition).
   */
  predicate Admissible(s: Snapshot, es: seq<Event>)
    decreases |es|
  {
    es == [] || (Offered(s, es[0]) && Possible(s, es[0]) && Admissible(Apply(s, es[0]), es[1..]))
  }

  /** The state after the events of an admissible trace. */
  function Run(s: Snapshot, es: seq<Event>): Snapshot
    requires Admissible(s, es)
    decreases |es|
  {
    if es == [] then s else Run(Apply(s, es[0]), es[1..])
  }

  lemma {:induction false} InvAlongRun(s: Snapshot, es: seq<Event>)
    requires Inv(s) && Admissible(s, es)
    ensures Inv(Run(s, es))
    decreases |es|
  {
    if es != [] {
      InvPreserved(s, es[0]);
      InvAlongRun(Apply(s, es[0]), es[1..]);
    }
  }

  /**
   * In every state the user can reach, a platform is chosen beyond the first
   * step, a confirmed handle is an '@'-prefixed valid handle for it, loading
   * is shown exactly while generating, and an error never shows with results.
   */
  lemma ReachableStates(es: seq<Event>)
    requires Admissible(Initial, es)
    ensures Inv(Run(Initial, es))
    ensures Run(Initial, es).step != SELECT_PLATFORM ==> Run(Initial, es).platform.Some?
  {
    InitialInv();
    InvAlongRun(Initial, es);
  }

  /**
   * Submitting a topic issues one request for the current platform and handle;
   * when it succeeds the results are shown with no error and the follow-up
   * request goes out with the same arguments.
   */
  lemma GenerateThenContent(s: Snapshot, t: string, results: seq<PostSuggestion>)
    requires Inv(s) && s.step == ENTER_TOPIC && TopicInput.Submittable(t)
    ensures var q := Query(s.platform.value, s.handle, t);
            var g := Apply(s, TopicSubmitted(t));
            && g.step == GENERATING && g.isLoading && g.error == None
            && g.suggestions == [] && g.nextSteps == [] && g.primaryPending == multiset{q}
            && var r := Apply(g, ContentArrived(q, results));
               && r.step == SHOW_RESULTS && r.suggestions == results && r.error == None
               && !r.isLoading && r.isGeneratingNextSteps
               && r.platform == s.platform && r.handle == s.handle && r.topic == t
               && r.primaryPending == multiset{} && r.followUpPending == s.followUpPending + multiset{q}
  {
  }

  /**
   * When the suggestions request fails, the user is back at the topic step
   * with the fixed message, no results, platform, handle and topic kept, and
   * no follow-up request issued.
   */
  lemma GenerateThenFailure(s: Snapshot, t: string)
    requires Inv(s) && s.step == ENTER_TOPIC && TopicInput.Submittable(t)
    ensures var q := Query(s.platform.value, s.handle, t);
            var g := Apply(s, TopicSubmitted(t));
            && q in g.primaryPending
            && var r := Apply(g, ContentFailed(q));
               && r.step == ENTER_TOPIC && r.error == Some(GenerationError) && r.suggestions == []
               && !r.isLoading && r.platform == s.platform && r.handle == s.handle && r.topic == t
               && r.primaryPending == multiset{} && r.followUpPending == s.followUpPending
               && Inv(r)
  {
    var g := Apply(s, TopicSubmitted(t));
    InvPreserved(s, TopicSubmitted(t));
    InvPreserved(g, ContentFailed(Query(s.platform.value, s.handle, t)));
  }

  /** A failed follow-up leaves the results on screen, clears the ideas and raises no error. */
  lemma IdeasFailureIsSwallowed(s: Snapshot, q: Query)
    requires Inv(s) && s.step == SHOW_RESULTS && q in s.followUpPending
    ensures var r := Apply(s, IdeasFailed(q));
            && r.step == SHOW_RESULTS && r.suggestions == s.suggestions && r.nextSteps == []
            && r.error == None && !r.isGeneratingNextSteps
  {
  }

  /** Without a platform and a handle, a topic submission changes nothing. */
  lemma GenerateGuard(s: Snapshot, t: string)
    requires s.platform.None? || s.handle == ""
    ensures Apply(s, TopicSubmitted(t)) == s
  {
  }

  /** Without a handle and a topic, a regeneration request changes nothing. */
  lemma RegenerateGuard(s: Snapshot, p: Platform)
    requires s.handle == "" || s.topic == ""
    ensures Apply(s, RegenerateRequested(p)) == s
  {
  }

  /** Regenerating is generating again for the new platform with the topic already stored. */
  lemma RegenerateIsGenerateOnNewPlatform(s: Snapshot, p: Platform)
    requires s.handle != "" && s.topic != ""
    ensures Apply(s, RegenerateRequested(p)) == Apply(s.(platform := Some(p)), TopicSubmitted(s.topic))
  {
  }

  /**
   * From the results view, a reset restores every initial value except the
   * follow-up flag, and the follow-up request stays in flight.
   */
  lemma ResetFromResults(s: Snapshot)
    requires Inv(s) && s.step == SHOW_RESULTS
    ensures Apply(s, ResetRequested) ==
            Initial.(isGeneratingNextSteps := s.isGeneratingNextSteps, followUpPending := s.followUpPending)
  {
  }

  /**
   * No stale-result suppression: follow-up ideas requested before a reset
   * still land afterwards, on the first step with no platform chosen.
   */
  lemma StaleIdeasLandAfterReset(s: Snapshot, q: Query, ideas: seq<string>)
    requires Inv(s) && s.step == SHOW_RESULTS && q in s.followUpPending
    ensures var r := Apply(Apply(s, ResetRequested), IdeasArrived(q, ideas));
            && r.step == SELECT_PLATFORM && r.platform.None? && r.nextSteps == ideas
            && Inv(r)
  {
    InvPreserved(s, ResetRequested);
    InvPreserved(Apply(s, ResetRequested), IdeasArrived(q, ideas));
  }

  /**
   * With two follow-ups in flight, the first to finish clears the flag while
   * the other is still running.
   */
  lemma StaleIdeasClearFlag(s: Snapshot, q1: Query, q2: Query)
    requires s.followUpPending == multiset{q1, q2}
    ensures var r := Apply(s, IdeasFailed(q1));
            && !r.isGeneratingNextSteps && q2 in r.followUpPending
  {
  }
}
