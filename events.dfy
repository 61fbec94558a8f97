/**
 The lifecycle event the handler receives and the filter that decides
 whether it is actionable (get_final_state).
 */
module Events {
  import opened Wrappers
  import opened Strings

  /** An event-bus notification. `time` is the event time in whole seconds;
      `detail` is the event's `detail` dictionary, None when the key is absent. */
  datatype Event = Event(time: int, detailType: string, detail: Option<map<string, string>>)

  const PipelineStateChange := "CodePipeline Pipeline Execution State Change"
  const StageStateChange := "CodePipeline Stage Execution State Change"
  const ActionStateChange := "CodePipeline Action Execution State Change"

  const Succeeded := "SUCCEEDED"
  const Failed := "FAILED"

  /** The `detail.state` of an event, when both keys exist. */
  function StateOf(event: Event): (state: Option<string>)
    ensures state.Some? <==> event.detail.Some? && "state" in event.detail.value
  {
    if event.detail.Some? && "state" in event.detail.value then Some(event.detail.value["state"]) else None
  }

  /** get_final_state: the event's state when it is a substring of
      "SUCCEEDED" or of "FAILED" (Python's `in`, not equality), else None. */
  function FinalState(event: Event): (state: Option<string>)
    ensures state.Some? ==> StateOf(event) == state
    ensures state.Some? <==> (StateOf(event).Some? &&
              ((exists i :: 0 <= i <= |Succeeded| && IsPrefix(StateOf(event).value, Succeeded[i..])) ||
               (exists i :: 0 <= i <= |Failed| && IsPrefix(StateOf(event).value, Failed[i..]))))
    ensures StateOf(event) == Some(Succeeded) ==> state == Some(Succeeded)
    ensures StateOf(event) == Some(Failed) ==> state == Some(Failed)
  {
    match StateOf(event)
    case Some(s) =>
      SubstringIffOccurrence(s, Succeeded);
      SubstringIffOccurrence(s, Failed);
      if IsSubstring(s, Succeeded) || IsSubstring(s, Failed) then Some(s) else None
    case None => None
  }

  /** A state holding a character found in neither "SUCCEEDED" nor "FAILED"
      is filtered out. */
  lemma ForeignStateFiltered(event: Event, c: char)
    requires StateOf(event).Some? && c in StateOf(event).value
    requires c !in Succeeded && c !in Failed
    ensures FinalState(event) == None
  {
    ForeignCharacterExcludes(StateOf(event).value, Succeeded, c);
    ForeignCharacterExcludes(StateOf(event).value, Failed, c);
  }

  /** The pipeline service's in-progress and other non-final states never pass the filter. */
  lemma TransitionalStatesFiltered(event: Event)
    requires StateOf(event).Some?
    requires StateOf(event).value in ["STARTED", "STOPPING", "STOPPED", "SUPERSEDED", "RESUMED", "CANCELED", "ABANDONED"]
    ensures FinalState(event) == None
  {
    var s := StateOf(event).value;
    if s == "STARTED" || s == "STOPPING" || s == "STOPPED" {
      assert s[1] == 'T';
      ForeignStateFiltered(event, 'T');
    } else if s == "SUPERSEDED" {
      assert s[2] == 'P';
      ForeignStateFiltered(event, 'P');
    } else if s == "RESUMED" {
      assert s[0] == 'R';
      ForeignStateFiltered(event, 'R');
    } else if s == "ABANDONED" {
      assert s[1] == 'B';
      ForeignStateFiltered(event, 'B');
    } else {
      assert s[2] == 'N';
      ForeignStateFiltered(event, 'N');
    }
  }

  /** Letters of "SUCCEEDED" that do not stand next to each other there do
      not pass: "SS" is not one contiguous run of either word. */
  lemma ScatteredLettersFiltered(event: Event)
    requires StateOf(event) == Some("SS")
    ensures FinalState(event) == None
  {
    assert !IsSubstring("SS", "");
    MismatchNotPrefix("SS", "D", 0);
    assert "D"[1..] == "";
    assert !IsSubstring("SS", "D");
    MismatchNotPrefix("SS", "ED", 0);
    assert "ED"[1..] == "D";
    assert !IsSubstring("SS", "ED");
    MismatchNotPrefix("SS", "DED", 0);
    assert "DED"[1..] == "ED";
    assert !IsSubstring("SS", "DED");
    MismatchNotPrefix("SS", "EDED", 0);
    assert "EDED"[1..] == "DED";
    assert !IsSubstring("SS", "EDED");
    MismatchNotPrefix("SS", "EEDED", 0);
    assert "EEDED"[1..] == "EDED";
    assert !IsSubstring("SS", "EEDED");
    MismatchNotPrefix("SS", "CEEDED", 0);
    assert "CEEDED"[1..] == "EEDED";
    assert !IsSubstring("SS", "CEEDED");
    MismatchNotPrefix("SS", "CCEEDED", 0);
    assert "CCEEDED"[1..] == "CEEDED";
    assert !IsSubstring("SS", "CCEEDED");
    MismatchNotPrefix("SS", "UCCEEDED", 0);
    assert "UCCEEDED"[1..] == "CCEEDED";
    assert !IsSubstring("SS", "UCCEEDED");
    MismatchNotPrefix("SS", Succeeded, 1);
    assert Succeeded[1..] == "UCCEEDED";
    assert !IsSubstring("SS", Succeeded);
    ForeignCharacterExcludes("SS", Failed, 'S');
  }

  /** Because the check is containment, parts of the final states pass too. */
  lemma PartialStatesPass(event: Event)
    requires StateOf(event).Some?
    requires StateOf(event).value in ["", "FAIL", "SUCCEED"]
    ensures FinalState(event) == StateOf(event)
  {
    var s := StateOf(event).value;
    assert IsPrefix(s, if s == "FAIL" then Failed else Succeeded);
  }
}
