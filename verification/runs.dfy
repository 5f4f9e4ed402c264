/**
 The shape both scripts share: load the client list from the report endpoint,
 then process the clients one by one inside a single outer `try`. An error
 that escapes one client's processing reaches that outer handler and ends the
 run; the remaining clients are never processed. Processing one client does
 not depend on the others, so a run is the prefix of the per-client steps up
 to and including the first one that aborts.
 */
module Runs {

  import opened Js

  /** One client's processing: what it did, and the error that escaped to the
      outer handler, if any. */
  datatype Step<E> = Step(work: E, abort: Option<Error>)

  datatype Run<E> = Run(clients: seq<Step<E>>, abort: Option<Error>)

  /** `(await apiCaller(report)).report.rows`, used as an array: a thrown call,
      an `undefined` result, a missing `report` or a `rows` that is not an
      array all throw before any client is processed. */
  function ClientRows(report: Completion): (r: Result<seq<JsValue>>)
    ensures report.Thrown? ==> r == Err(report.error)
    ensures report.Normal? && Nullish(report.value) ==> r == Err(TypeError)
    ensures report.Normal? && r.Err? ==> r.error == TypeError
    ensures (&& report.Normal? && !Nullish(report.value) && !Nullish(Field(report.value, "report"))
             && Field(Field(report.value, "report"), "rows").Arr?) ==>
      r == Ok(Field(Field(report.value, "report"), "rows").elems)
    ensures r.Ok? ==>
      && report.Normal? && !Nullish(report.value)
      && !Nullish(Field(report.value, "report"))
      && Field(Field(report.value, "report"), "rows") == Arr(r.value)
  {
    match report
    case Thrown(e) => Err(e)
    case Normal(v) =>
      var body :- Member(v, Named("report"));
      var rows :- Member(body, Named("rows"));
      if rows.Arr? then Ok(rows.elems) else Err(TypeError)
  }

  /** The steps the loop actually takes: all of them up to and including the
      first that aborts. */
  function UpToFirstAbort<E>(steps: seq<Step<E>>): (log: seq<Step<E>>)
    ensures |log| <= |steps|
    ensures log == steps[..|log|]
    ensures forall i | 0 <= i < |log| - 1 :: log[i].abort.None?
    ensures |log| < |steps| ==> |log| >= 1 && log[|log| - 1].abort.Some?
    decreases |steps|
  {
    if |steps| == 0 then []
    else if steps[0].abort.Some? then [steps[0]]
    else [steps[0]] + UpToFirstAbort(steps[1..])
  }

  /** The run over a loaded client list; its abort is the error that ended
      the last processed client, if any. */
  function Complete<E>(log: seq<Step<E>>): (r: Run<E>)
    ensures r.clients == log
    ensures |log| == 0 ==> r.abort.None?
    ensures |log| > 0 ==> r.abort == log[|log| - 1].abort
  {
    Run(log, if |log| == 0 then None else log[|log| - 1].abort)
  }

  /** `r` is what the loop makes of `steps`: the steps in order up to the
      first that aborts, stopping there, with that step's error as the run's. */
  ghost predicate IsRunOver<E>(r: Run<E>, steps: seq<Step<E>>) {
    && |r.clients| <= |steps|
    && r.clients == steps[..|r.clients|]
    && (forall i | 0 <= i < |r.clients| - 1 :: r.clients[i].abort.None?)
    && (|r.clients| < |steps| ==> |r.clients| >= 1 && r.clients[|r.clients| - 1].abort.Some?)
    && (|r.clients| > 0 ==> r.abort == r.clients[|r.clients| - 1].abort)
    && (r.abort.None? <==> |r.clients| == |steps| && forall i | 0 <= i < |steps| :: steps[i].abort.None?)
  }

  /** The loop over the steps is a run over them. */
  lemma {:induction false} CompleteIsRunOver<E>(steps: seq<Step<E>>)
    ensures IsRunOver(Complete(UpToFirstAbort(steps)), steps)
  {
    var log := UpToFirstAbort(steps);
    if |log| == |steps| && |log| > 0 {
      assert log[|log| - 1] == steps[|steps| - 1];
    }
    if |log| < |steps| {
      assert log[|log| - 1] == steps[|log| - 1];
    }
  }

  /** IsRunOver pins the run down: two runs over the same steps are equal. */
  lemma {:induction false} RunOverIsUnique<E>(r1: Run<E>, r2: Run<E>, steps: seq<Step<E>>)
    requires IsRunOver(r1, steps) && IsRunOver(r2, steps)
    ensures r1 == r2
  {
    assert |r1.clients| == |r2.clients|;
    assert r1.clients == r2.clients;
  }

  /** A client whose processing does not abort never stops the run: the next
      client is processed too. */
  lemma NonAbortingStepContinues<E>(steps: seq<Step<E>>, i: nat)
    requires i + 1 < |steps| && steps[i].abort.None?
    requires i < |UpToFirstAbort(steps)|
    ensures i + 1 < |UpToFirstAbort(steps)|
  {
    var log := UpToFirstAbort(steps);
    assert log[i] == steps[i];
  }
}
