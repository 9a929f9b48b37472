/**
 * The topic-entry step (components/TopicInput.tsx): the textarea's `topic`
 * state, the trim-and-guard of `handleSubmit`, and the submit button's
 * `disabled` condition.
 */
module TopicInput {
  import opened Types
  import opened JsString

  /** A topic the step can hand to the wizard: non-empty, with no whitespace at either end. */
  predicate Submittable(t: string) {
    t != [] && !IsWhitespace(t[0]) && !IsWhitespace(t[|t| - 1])
  }

  /** A submittable topic is its own trim, so the wizard receives it unchanged. */
  lemma SubmittableIsTrimmed(t: string)
    requires Submittable(t)
    ensures Trim(t) == t && !AllWhitespace(t)
  {
    StripOfUnpadded(t, Whitespace);
    StripEmptyIff(t, Whitespace);
  }

  /** The form's state: the textarea's current value, stored as typed. */
  class TopicForm {
    var topic: string

    constructor ()
      ensures topic == ""
    {
      topic := "";
    }

    /** The textarea's `onChange`: keep the value exactly as typed. */
    method Change(value: string)
      modifies this
      ensures topic == value
    {
      topic := value;
    }

    /** The Generate button's `disabled` condition: nothing but whitespace typed. */
    function SubmitDisabled(): (disabled: bool)
      reads this
      ensures disabled <==> AllWhitespace(topic)
    {
      StripEmptyIff(topic, Whitespace);
      Trim(topic) == []
    }

    /**
     * `handleSubmit`: hand over the trimmed topic, and only when trimming
     * leaves something. The form's own state does not change.
     */
    method Submit() returns (submitted: Option<string>)
      ensures submitted.None? <==> SubmitDisabled()
      ensures submitted.Some? ==> submitted.value == Trim(topic) && Submittable(submitted.value)
    {
      var trimmed := Trim(topic);
      if trimmed != [] {
        submitted := Some(trimmed);
      } else {
        submitted := None;
      }
    }
  }
}
