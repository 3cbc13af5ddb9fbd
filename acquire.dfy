/**
 * The candidate-selection loop of `fetchSeasonHistory`: the history
 * endpoints are tried in order; the first response with a non-empty hourly
 * time axis is used, an abort is passed on at once, and otherwise the
 * request fails with the last four failure descriptions. The network is not
 * modelled: each candidate comes with the outcome its request had.
 */
module HistoryFetch {
  import opened Wrappers
  import opened Text

  /** One history endpoint to try. */
  datatype Candidate = Candidate(source: string, includesSnowDepth: bool)

  /** What `throw` produced: an `Error` (or `DOMException`) with a name and message, or some other value. */
  datatype Thrown = ErrorObject(name: string, message: string) | OtherValue

  /**
   * What trying one candidate came to: a non-OK HTTP status with the text of
   * its body, a parsed JSON document with the length of its `hourly.time`
   * array (None when that path is missing), or an exception.
   */
  datatype Attempt<J> = HttpError(status: int, body: string) | Parsed(json: J, hourlyTimeCount: Option<nat>) | Threw(err: Thrown)

  datatype Tried<J> = Tried(candidate: Candidate, attempt: Attempt<J>)

  /** The result of `fetchSeasonHistory`: a usable payload, the abort re-thrown, or an `Error` with a message. */
  datatype HistoryOutcome<J> = Found(json: J, source: string, includesSnowDepth: bool) | Aborted | Failed(message: string)

  /** `isAbortError`. */
  predicate IsAbortError(err: Thrown) {
    err.ErrorObject? && err.name == "AbortError"
  }

  predicate Usable<J>(a: Attempt<J>) {
    a.Parsed? && a.hourlyTimeCount.Some? && a.hourlyTimeCount.value > 0
  }

  /** An attempt that ends the loop: a usable payload or an abort. */
  predicate Stops<J>(a: Attempt<J>) {
    Usable(a) || (a.Threw? && IsAbortError(a.err))
  }

  /** The failure line an attempt that does not stop the loop contributes. */
  function FailureText<J>(t: Tried<J>): (r: string)
    ensures |r| >= |t.candidate.source| + 2 && r[..|t.candidate.source| + 2] == t.candidate.source + ": "
  {
    var source := t.candidate.source;
    match t.attempt
    case HttpError(status, body) => source + ": " + IntToString(status) + " " + body
    case Parsed(_, _) => source + ": empty hourly payload"
    case Threw(err) => source + ": " + (if err.ErrorObject? then err.message else "request failure")
  }

  function FailureTexts<J>(tries: seq<Tried<J>>): (r: seq<string>)
    ensures |r| == |tries|
    ensures forall i :: 0 <= i < |tries| ==> r[i] == FailureText(tries[i])
  {
    if tries == [] then [] else FailureTexts(tries[..|tries| - 1]) + [FailureText(tries[|tries| - 1])]
  }

  /** `failures.slice(-4)`. */
  function LastFour(xs: seq<string>): (r: seq<string>)
    ensures |r| == if |xs| <= 4 then |xs| else 4
    ensures r == xs[|xs| - |r|..]
  {
    if |xs| <= 4 then xs else xs[|xs| - 4..]
  }

  /** The index of the first attempt that stops the loop, or the number of attempts. */
  function FirstStop<J>(tries: seq<Tried<J>>): (i: nat)
    ensures i <= |tries|
    ensures forall j :: 0 <= j < i ==> !Stops(tries[j].attempt)
    ensures i < |tries| ==> Stops(tries[i].attempt)
  {
    if tries == [] then 0
    else if Stops(tries[0].attempt) then 0
    else 1 + FirstStop(tries[1..])
  }

  /** What the candidate loop decides. */
  function Selection<J>(tries: seq<Tried<J>>): HistoryOutcome<J> {
    var i := FirstStop(tries);
    if i < |tries| then
      var t := tries[i];
      if Usable(t.attempt) then Found(t.attempt.json, t.candidate.source, t.candidate.includesSnowDepth)
      else Aborted
    else Failed("History request failed. " + Join(LastFour(FailureTexts(tries)), " | "))
  }

  /** `fetchSeasonHistory`'s loop over the candidates. */
  method FetchSeasonHistory<J>(tries: seq<Tried<J>>) returns (outcome: HistoryOutcome<J>)
    ensures outcome == Selection(tries)
  {
    var failures: seq<string> := [];
    for i := 0 to |tries|
      invariant failures == FailureTexts(tries[..i])
      invariant forall j :: 0 <= j < i ==> !Stops(tries[j].attempt)
    {
      var t := tries[i];
      assert tries[..i + 1][..i] == tries[..i];
      match t.attempt {
        case HttpError(status, body) =>
          failures := failures + [t.candidate.source + ": " + IntToString(status) + " " + body];
        case Parsed(json, count) =>
          if count.None? || count.value == 0 {
            failures := failures + [t.candidate.source + ": empty hourly payload"];
          } else {
            FirstStopAt(tries, i);
            return Found(json, t.candidate.source, t.candidate.includesSnowDepth);
          }
        case Threw(err) =>
          if IsAbortError(err) {
            FirstStopAt(tries, i);
            return Aborted;
          }
          failures := failures + [t.candidate.source + ": " + (if err.ErrorObject? then err.message else "request failure")];
      }
    }
    assert tries[..|tries|] == tries;
    FirstStopNone(tries);
    var tail := LastFour(failures);
    outcome := Failed("History request failed. " + Join(tail, " | "));
  }

  lemma {:induction false} FirstStopAt<J>(tries: seq<Tried<J>>, i: nat)
    requires i < |tries| && Stops(tries[i].attempt)
    requires forall j :: 0 <= j < i ==> !Stops(tries[j].attempt)
    ensures FirstStop(tries) == i
  {
    if i > 0 {
      FirstStopAt(tries[1..], i - 1);
    }
  }

  lemma {:induction false} FirstStopNone<J>(tries: seq<Tried<J>>)
    requires forall j :: 0 <= j < |tries| ==> !Stops(tries[j].attempt)
    ensures FirstStop(tries) == |tries|
  {
    if tries != [] {
      FirstStopNone(tries[1..]);
    }
  }

  // ---------------------------------------------------------------------------
  // What the selection guarantees
  // ---------------------------------------------------------------------------

  /** A payload is used only if it is non-empty and no earlier candidate was usable or aborted. */
  lemma FoundIsFirstUsable<J>(tries: seq<Tried<J>>) returns (i: nat)
    requires Selection(tries).Found?
    ensures i < |tries| && Usable(tries[i].attempt)
    ensures Selection(tries).json == tries[i].attempt.json
    ensures Selection(tries).source == tries[i].candidate.source
    ensures Selection(tries).includesSnowDepth == tries[i].candidate.includesSnowDepth
    ensures forall j :: 0 <= j < i ==> !Usable(tries[j].attempt) && !(tries[j].attempt.Threw? && IsAbortError(tries[j].attempt.err))
  {
    i := FirstStop(tries);
  }

  /** The request fails with an error only when every candidate failed without an abort. */
  lemma FailedMeansEveryCandidateFailed<J>(tries: seq<Tried<J>>)
    ensures Selection(tries).Failed? <==> forall j :: 0 <= j < |tries| ==> !Stops(tries[j].attempt)
  {
    if forall j :: 0 <= j < |tries| ==> !Stops(tries[j].attempt) {
      FirstStopNone(tries);
    }
  }

  /** An abort is passed on whatever the later candidates would have returned. */
  lemma AbortIsPassedOn<J>(tries: seq<Tried<J>>, rest: seq<Tried<J>>, i: nat)
    requires i < |tries| && tries[i].attempt.Threw? && IsAbortError(tries[i].attempt.err)
    requires forall j :: 0 <= j < i ==> !Stops(tries[j].attempt)
    ensures Selection(tries[..i + 1] + rest) == Aborted
  {
    var all := tries[..i + 1] + rest;
    assert forall j :: 0 <= j <= i ==> all[j] == tries[j];
    FirstStopAt(all, i);
  }

  /** The failure message names the source of each of the last four failures. */
  lemma FailedMessageNamesLastFour<J>(tries: seq<Tried<J>>, k: nat)
    requires Selection(tries).Failed? && |tries| - 4 <= k < |tries|
    ensures Contains(Selection(tries).message, tries[k].candidate.source + ": ")
  {
    var texts := FailureTexts(tries);
    var tail := LastFour(texts);
    assert Selection(tries).message == "History request failed. " + Join(tail, " | ");
    var at := k - (|texts| - |tail|);
    assert tail[at] == texts[k];
    var sub := tries[k].candidate.source + ": ";
    assert MatchesAt(tail[at], sub, 0);
    ContainsInJoin(tail, " | ", at, sub);
    ContainsInConcat("History request failed. ", Join(tail, " | "), sub);
  }
}
