/**
 * The `App` component itself: its nine `useState` hooks as fields, each
 * handler as a method proved to move the fields as `Wizard.Apply` says.
 * The in-flight requests are ghost fields.
 */
module AppComponent {
  import opened Types
  import opened Wizard

  /** `App`'s state as a mutable object; each handler is one method. */
  class App {
    var step: AppStep
    var platform: Option<Platform>
    var handle: string
    var topic: string
    var suggestions: seq<PostSuggestion>
    var nextSteps: seq<string>
    var isLoading: bool
    var isGeneratingNextSteps: bool
    var error: Option<string>
    ghost var primaryPending: multiset<Query>
    ghost var followUpPending: multiset<Query>

    ghost function State(): Snapshot
      reads this
    {
      Snapshot(step, platform, handle, topic, suggestions, nextSteps, isLoading, isGeneratingNextSteps, error,
               primaryPending, followUpPending)
    }

    constructor ()
      ensures State() == Initial
    {
      step := SELECT_PLATFORM;
      platform := None;
      handle := "";
      topic := "";
      suggestions := [];
      nextSteps := [];
      isLoading := false;
      isGeneratingNextSteps := false;
      error := None;
      primaryPending := multiset{};
      followUpPending := multiset{};
    }

    method PlatformSelect(selected: Platform)
      modifies this
      ensures State() == Apply(old(State()), PlatformSelected(selected))
    {
      platform := Some(selected);
      step := ENTER_HANDLE;
    }

    method HandleSubmit(userHandle: string)
      modifies this
      ensures State() == Apply(old(State()), HandleSubmitted(userHandle))
    {
      handle := userHandle;
      step := CONFIRM_HANDLE;
    }

    method HandleConfirm()
      modifies this
      ensures State() == Apply(old(State()), HandleConfirmed)
    {
      step := ENTER_TOPIC;
    }

    method HandleEdit()
      modifies this
      ensures State() == Apply(old(State()), HandleEdited)
    {
      step := ENTER_HANDLE;
    }

    /** The handle step's Back button: the platform is kept. */
    method Back()
      modifies this
      ensures State() == Apply(old(State()), BackPressed)
    {
      step := SELECT_PLATFORM;
    }

    /** `handleGenerateContent` up to its first `await`; returns the request it issues, if any. */
    method GenerateContent(postTopic: string) returns (issued: Option<Query>)
      modifies this
      ensures State() == Apply(old(State()), TopicSubmitted(postTopic))
      ensures issued == if old(platform).None? || old(handle) == "" then None
                        else Some(Query(old(platform).value, old(handle), postTopic))
    {
      if platform.None? || handle == "" {
        return None;
      }
      var q := Query(platform.value, handle, postTopic);
      topic := postTopic;
      isLoading := true;
      error := None;
      suggestions := [];
      nextSteps := [];
      step := GENERATING;
      primaryPending := primaryPending + multiset{q};
      issued := Some(q);
    }

    /** `handleRegenerateForPlatform` up to its first `await`; returns the request it issues, if any. */
    method RegenerateForPlatform(newPlatform: Platform) returns (issued: Option<Query>)
      modifies this
      ensures State() == Apply(old(State()), RegenerateRequested(newPlatform))
      ensures issued == if old(handle) == "" || old(topic) == "" then None
                        else Some(Query(newPlatform, old(handle), old(topic)))
    {
      if handle == "" || topic == "" {
        return None;
      }
      var q := Query(newPlatform, handle, topic);
      platform := Some(newPlatform);
      isLoading := true;
      error := None;
      suggestions := [];
      nextSteps := [];
      step := GENERATING;
      primaryPending := primaryPending + multiset{q};
      issued := Some(q);
    }

    method Reset()
      modifies this
      ensures State() == Apply(old(State()), ResetRequested)
    {
      ResetClears(State());
      step := SELECT_PLATFORM;
      platform := None;
      handle := "";
      topic := "";
      suggestions := [];
      nextSteps := [];
      error := None;
    }

    /** The suggestions request `q` resolves: show the results, then issue the follow-up with `q`'s arguments. */
    method ContentReady(q: Query, results: seq<PostSuggestion>)
      requires q in primaryPending
      modifies this
      ensures State() == Apply(old(State()), ContentArrived(q, results))
    {
      assert Apply(State(), ContentArrived(q, results)) ==
             Snapshot(SHOW_RESULTS, platform, handle, topic, results, nextSteps, false, true, error,
                      primaryPending - multiset{q}, followUpPending + multiset{q});
      primaryPending := primaryPending - multiset{q};
      suggestions := results;
      step := SHOW_RESULTS;
      isLoading := false;
      isGeneratingNextSteps := true;
      followUpPending := followUpPending + multiset{q};
    }

    /** The suggestions request `q` rejects. */
    method ContentError(q: Query)
      requires q in primaryPending
      modifies this
      ensures State() == Apply(old(State()), ContentFailed(q))
    {
      assert Apply(State(), ContentFailed(q)) ==
             Snapshot(ENTER_TOPIC, platform, handle, topic, suggestions, nextSteps, false, isGeneratingNextSteps,
                      Some(GenerationError), primaryPending - multiset{q}, followUpPending);
      primaryPending := primaryPending - multiset{q};
      error := Some(GenerationError);
      step := ENTER_TOPIC;
      isLoading := false;
    }

    /** The follow-up request `q` resolves. */
    method IdeasReady(q: Query, ideas: seq<string>)
      requires q in followUpPending
      modifies this
      ensures State() == Apply(old(State()), IdeasArrived(q, ideas))
    {
      assert Apply(State(), IdeasArrived(q, ideas)) ==
             Snapshot(step, platform, handle, topic, suggestions, ideas, isLoading, false, error,
                      primaryPending, followUpPending - multiset{q});
      followUpPending := followUpPending - multiset{q};
      nextSteps := ideas;
      isGeneratingNextSteps := false;
    }

    /** The follow-up request `q` rejects; the failure is swallowed. */
    method IdeasError(q: Query)
      requires q in followUpPending
      modifies this
      ensures State() == Apply(old(State()), IdeasFailed(q))
    {
      assert Apply(State(), IdeasFailed(q)) ==
             Snapshot(step, platform, handle, topic, suggestions, [], isLoading, false, error,
                      primaryPending, followUpPending - multiset{q});
      followUpPending := followUpPending - multiset{q};
      nextSteps := [];
      isGeneratingNextSteps := false;
    }
  }
}
