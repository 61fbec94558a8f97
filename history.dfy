/**
 The two scans over a pipeline's execution history (get_execution and
 get_prior_execution). The history is the list of execution summaries the
 pipeline service returns, most recent first, passed in as a parameter.
 */
module History {
  import opened Wrappers
  import opened Strings

  /** One execution summary; the two times are whole seconds. */
  datatype Execution = Execution(id: string, status: string, startTime: int, lastUpdateTime: int)

  /** k is the first position at or after i whose execution id is `id`. */
  ghost predicate IsFirstIdFrom(history: seq<Execution>, id: string, i: int, k: int)
  {
    0 <= i <= k < |history| && history[k].id == id &&
    forall m :: i <= m < k ==> history[m].id != id
  }

  /** A status the prior-execution scan accepts: a substring of "Succeeded"
      or of "Failed" (Python's `in`). */
  predicate IsFinalStatus(status: string)
  {
    IsSubstring(status, "Succeeded") || IsSubstring(status, "Failed")
  }

  /** j is the first position at or after i whose status is final. */
  ghost predicate IsFirstFinalFrom(history: seq<Execution>, i: int, j: int)
  {
    0 <= i <= j < |history| && IsFinalStatus(history[j].status) &&
    forall m :: i <= m < j ==> !IsFinalStatus(history[m].status)
  }

  /** The first summary with the given id at or after position i. */
  function ExecutionFrom(history: seq<Execution>, id: string, i: nat): (r: Option<Execution>)
    requires i <= |history|
    ensures r.Some? ==> r.value.id == id
    decreases |history| - i
  {
    if i == |history| then None
    else if history[i].id == id then Some(history[i])
    else ExecutionFrom(history, id, i + 1)
  }

  /** From position i, the scan finds nothing exactly when no later summary
      has the id, and otherwise the first one that has it. */
  lemma {:induction false} ExecutionFromIsFirst(history: seq<Execution>, id: string, i: nat)
    requires i <= |history|
    ensures ExecutionFrom(history, id, i).None? <==> forall m :: i <= m < |history| ==> history[m].id != id
    ensures ExecutionFrom(history, id, i).Some? ==>
              exists k :: IsFirstIdFrom(history, id, i, k) && ExecutionFrom(history, id, i).value == history[k]
    decreases |history| - i
  {
    if i == |history| {
    } else if history[i].id == id {
      assert IsFirstIdFrom(history, id, i, i);
    } else {
      ExecutionFromIsFirst(history, id, i + 1);
      assert forall k :: IsFirstIdFrom(history, id, i + 1, k) ==> IsFirstIdFrom(history, id, i, k);
    }
  }

  /** get_execution: the first summary whose id matches, None when none does. */
  function ExecutionById(history: seq<Execution>, id: string): (r: Option<Execution>)
    ensures r.None? <==> forall m :: 0 <= m < |history| ==> history[m].id != id
    ensures r.Some? ==> exists k :: IsFirstIdFrom(history, id, 0, k) && r.value == history[k]
  {
    ExecutionFromIsFirst(history, id, 0);
    ExecutionFrom(history, id, 0)
  }

  /** get_execution's early-return loop. */
  method GetExecution(history: seq<Execution>, id: string) returns (r: Option<Execution>)
    ensures r == ExecutionById(history, id)
  {
    for i := 0 to |history|
      invariant ExecutionFrom(history, id, i) == ExecutionById(history, id)
    {
      if history[i].id == id {
        return Some(history[i]);
      }
    }
    return None;
  }

  /** get_prior_execution's loop from position i, `found` being its
      `found_current` flag: once the current id has been passed, the next
      summary with a final status is the answer. */
  function PriorScan(history: seq<Execution>, id: string, i: nat, found: bool): (r: Option<Execution>)
    requires i <= |history|
    ensures r.Some? ==> IsFinalStatus(r.value.status)
    decreases |history| - i
  {
    if i == |history| then None
    else if found && IsFinalStatus(history[i].status) then Some(history[i])
    else PriorScan(history, id, i + 1, found || history[i].id == id)
  }

  /** get_prior_execution: the scan from the start, flag cleared. */
  function PriorExecution(history: seq<Execution>, id: string): (r: Option<Execution>)
    ensures r.Some? ==> IsFinalStatus(r.value.status)
  {
    PriorScan(history, id, 0, false)
  }

  /** get_prior_execution's loop with its mutable `found_current` flag. */
  method GetPriorExecution(history: seq<Execution>, id: string) returns (r: Option<Execution>)
    ensures r == PriorExecution(history, id)
  {
    var foundCurrent := false;
    for i := 0 to |history|
      invariant PriorScan(history, id, i, foundCurrent) == PriorExecution(history, id)
    {
      var e := history[i];
      if foundCurrent && IsFinalStatus(e.status) {
        return Some(e);
      } else if e.id == id {
        foundCurrent := true;
      }
    }
    return None;
  }

  /** With the flag set, the scan returns the first final summary from i on. */
  lemma {:induction false} FoundPhase(history: seq<Execution>, id: string, i: nat)
    requires i <= |history|
    ensures PriorScan(history, id, i, true).Some? <==> exists j :: IsFirstFinalFrom(history, i, j)
    ensures forall j :: IsFirstFinalFrom(history, i, j) ==> PriorScan(history, id, i, true) == Some(history[j])
    decreases |history| - i
  {
    if i < |history| {
      if IsFinalStatus(history[i].status) {
        assert IsFirstFinalFrom(history, i, i);
      } else {
        var next := i + 1;
        FoundPhase(history, id, next);
        forall j | IsFirstFinalFrom(history, i, j)
          ensures IsFirstFinalFrom(history, next, j)
        {
        }
        if exists j :: IsFirstFinalFrom(history, next, j) {
          var j :| IsFirstFinalFrom(history, next, j);
          assert IsFirstFinalFrom(history, i, j);
        }
      }
    }
  }

  /** Before the flag is set, the scan skips to just past the first summary
      with the current id, or finds nothing if there is none. */
  lemma {:induction false} SearchPhase(history: seq<Execution>, id: string, i: nat)
    requires i <= |history|
    ensures (forall m :: i <= m < |history| ==> history[m].id != id) ==> PriorScan(history, id, i, false) == None
    ensures forall k :: IsFirstIdFrom(history, id, i, k) ==> PriorScan(history, id, i, false) == PriorScan(history, id, k + 1, true)
    decreases |history| - i
  {
    if i < |history| {
      SearchPhase(history, id, i + 1);
      if history[i].id != id {
        forall k | IsFirstIdFrom(history, id, i, k)
          ensures IsFirstIdFrom(history, id, i + 1, k)
        {
        }
      }
    }
  }

  /** j is the intended answer: the first final summary strictly
      after the first summary with the current id. */
  ghost predicate IsPriorOf(history: seq<Execution>, id: string, j: int)
  {
    exists k :: IsFirstIdFrom(history, id, 0, k) && IsFirstFinalFrom(history, k + 1, j)
  }

  /** get_prior_execution finds exactly the summary IsPriorOf describes, and
      None when there is no such summary. */
  lemma PriorExecutionIsFirstFinalAfterCurrent(history: seq<Execution>, id: string)
    ensures PriorExecution(history, id).Some? <==> exists j :: IsPriorOf(history, id, j)
    ensures forall j :: IsPriorOf(history, id, j) ==> PriorExecution(history, id) == Some(history[j])
  {
    SearchPhase(history, id, 0);
    if k :| IsFirstIdFrom(history, id, 0, k) {
      FoundPhase(history, id, k + 1);
      forall j | IsPriorOf(history, id, j)
        ensures IsFirstFinalFrom(history, k + 1, j)
      {
        var k' :| IsFirstIdFrom(history, id, 0, k') && IsFirstFinalFrom(history, k' + 1, j);
        assert k' == k;
      }
      if PriorExecution(history, id).Some? {
        var j :| IsFirstFinalFrom(history, k + 1, j);
        assert IsPriorOf(history, id, j);
      }
    } else {
      forall m | 0 <= m < |history|
        ensures history[m].id != id
      {
        if history[m].id == id {
          FirstIdExists(history, id, m);
        }
      }
    }
  }

  /** A position with the id implies a first such position. */
  lemma {:induction false} FirstIdExists(history: seq<Execution>, id: string, m: nat)
    requires m < |history| && history[m].id == id
    ensures exists k :: IsFirstIdFrom(history, id, 0, k)
    decreases m
  {
    if forall p :: 0 <= p < m ==> history[p].id != id {
      assert IsFirstIdFrom(history, id, 0, m);
    } else {
      var p :| 0 <= p < m && history[p].id == id;
      FirstIdExists(history, id, p);
    }
  }

  /** Without the current id in the history there is no prior execution. */
  lemma PriorExecutionNeedsCurrent(history: seq<Execution>, id: string)
    requires forall m :: 0 <= m < |history| ==> history[m].id != id
    ensures PriorExecution(history, id) == None
  {
    PriorExecutionIsFirstFinalAfterCurrent(history, id);
  }

  /** When execution ids are unique, the prior execution is never the current
      one, and its status is final. */
  lemma PriorExecutionIsNotCurrent(history: seq<Execution>, id: string)
    requires forall a, b :: 0 <= a < b < |history| ==> history[a].id != history[b].id
    ensures PriorExecution(history, id).Some? ==>
              PriorExecution(history, id).value.id != id && IsFinalStatus(PriorExecution(history, id).value.status)
  {
    PriorExecutionIsFirstFinalAfterCurrent(history, id);
    if PriorExecution(history, id).Some? {
      var j :| IsPriorOf(history, id, j);
      var k :| IsFirstIdFrom(history, id, 0, k) && IsFirstFinalFrom(history, k + 1, j);
      assert history[k].id != history[j].id;
    }
  }
}
