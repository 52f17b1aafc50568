/**
 The dependency set and the process runtime: components start in order and close in reverse, whatever fails.
 The trace records every call that reaches a component.
 */
module Lifecycle {

  import opened Wrappers

  datatype Action = Started(index: nat) | StartFailed(index: nat) | Closed(index: nat, ok: bool)

  type Trace = seq<Action>

  // ---------- The discipline, read off a trace alone ----------

  /** The components open after a trace, oldest first; None if one was closed that was not the latest open one. */
  function OpenAfter(trace: Trace): Option<seq<nat>> {
    if trace == [] then Some([])
    else
      var n := |trace| - 1;
      var open := OpenAfter(trace[..n]);
      if open.None? then None
      else match trace[n]
        case Started(i) => Some(open.value + [i])
        case StartFailed(_) => open
        case Closed(i, _) =>
          if open.value != [] && open.value[|open.value| - 1] == i then Some(open.value[..|open.value| - 1]) else None
  }

  function Starts(trace: Trace, i: nat): nat {
    if trace == [] then 0 else Starts(trace[..|trace| - 1], i) + (if trace[|trace| - 1] == Started(i) then 1 else 0)
  }

  function Closes(trace: Trace, i: nat): nat {
    if trace == [] then 0
    else
      var last := trace[|trace| - 1];
      Closes(trace[..|trace| - 1], i) + (if last.Closed? && last.index == i then 1 else 0)
  }

  function Occurrences(open: seq<nat>, i: nat): nat {
    if open == [] then 0 else Occurrences(open[..|open| - 1], i) + (if open[|open| - 1] == i then 1 else 0)
  }

  /** In a disciplined trace every start is closed exactly once, except those of the components still open. */
  lemma {:induction false} StartsAndCloses(trace: Trace, i: nat)
    requires OpenAfter(trace).Some?
    ensures Starts(trace, i) == Closes(trace, i) + Occurrences(OpenAfter(trace).value, i)
  {
    if trace != [] {
      var n := |trace| - 1;
      StartsAndCloses(trace[..n], i);
      var open := OpenAfter(trace[..n]).value;
      if trace[n].Started? {
        assert (open + [trace[n].index])[..|open|] == open;
      }
    }
  }

  // ---------- The set as a function of its calls ----------

  datatype SetState = SetState(active: bool, started: nat, trace: Trace)

  /** A call on the set, with what its components do: which Start fails first, and which Close calls succeed. */
  datatype Call = CallStart(failsAt: Option<nat>) | CallClose(results: seq<bool>)

  function UpTo(n: nat): seq<nat> {
    if n == 0 then [] else UpTo(n - 1) + [n - 1]
  }

  function StartTrace(k: nat): Trace {
    if k == 0 then [] else StartTrace(k - 1) + [Started(k - 1)]
  }

  function Succeeds(results: seq<bool>, i: nat): bool {
    i >= |results| || results[i]
  }

  /** Closing the first `k` components, latest first. */
  function CloseTrace(k: nat, results: seq<bool>): Trace {
    if k == 0 then [] else [Closed(k - 1, Succeeds(results, k - 1))] + CloseTrace(k - 1, results)
  }

  /** The components among the first `k` that fail to close, latest first. */
  function CloseErrors(components: seq<string>, k: nat, results: seq<bool>): seq<string>
    requires k <= |components|
  {
    if k == 0 then []
    else (if Succeeds(results, k - 1) then [] else [components[k - 1]]) + CloseErrors(components, k - 1, results)
  }

  lemma {:induction false} NoCloseErrors(components: seq<string>, k: nat, results: seq<bool>)
    requires k <= |components|
    ensures CloseErrors(components, k, results) == [] <==> forall i :: 0 <= i < k ==> Succeeds(results, i)
  {
    if k > 0 {
      NoCloseErrors(components, k - 1, results);
    }
  }

  /**
   The reported names are those of the components that fail to close, each once per failing component, latest first:
   `failed` lists the failing components in falling order.
   */
  lemma {:induction false} CloseErrorsTell(components: seq<string>, k: nat, results: seq<bool>)
    returns (failed: seq<nat>)
    requires k <= |components|
    ensures |failed| == |CloseErrors(components, k, results)|
    ensures forall a :: 0 <= a < |failed| ==>
      failed[a] < k && CloseErrors(components, k, results)[a] == components[failed[a]]
    ensures forall a, b :: 0 <= a < b < |failed| ==> failed[a] > failed[b]
    ensures forall i :: 0 <= i < k ==> (i in failed <==> i < |results| && !results[i])
  {
    failed := [];
    if k > 0 {
      var rest := CloseErrorsTell(components, k - 1, results);
      failed := (if Succeeds(results, k - 1) then [] else [k - 1]) + rest;
    }
  }

  lemma {:induction false} StartTraceAt(k: nat)
    ensures |StartTrace(k)| == k && forall i :: 0 <= i < k ==> StartTrace(k)[i] == Started(i)
  {
    if k > 0 {
      StartTraceAt(k - 1);
    }
  }

  lemma {:induction false} CloseTraceAt(k: nat, results: seq<bool>)
    ensures |CloseTrace(k, results)| == k
    ensures forall i :: 0 <= i < k ==>
      CloseTrace(k, results)[i] == Closed(k - 1 - i, Succeeds(results, k - 1 - i))
  {
    if k > 0 {
      CloseTraceAt(k - 1, results);
    }
  }

  /** A start in full: the components before the first failing one are started in order, and the failing one is not. */
  lemma StartInFull(n: nat, s: SetState, failsAt: Option<nat>)
    requires Disciplined(n, s) && !s.active
    ensures var t, from := ApplyCall(n, s, CallStart(failsAt)), |s.trace|;
      && t.active && t.started == (if failsAt.Some? && failsAt.value < n then failsAt.value else n)
      && |t.trace| == from + (if t.started < n then t.started + 1 else t.started)
      && t.trace[..from] == s.trace
      && (forall j :: from <= j < from + t.started ==> t.trace[j] == Started(j - from))
      && (t.started < n ==> t.trace[from + t.started] == StartFailed(t.started))
  {
    StartTraceAt(Reached(n, failsAt));
  }

  /** A close in full: what was started is closed, latest first, whatever fails. */
  lemma CloseInFull(n: nat, s: SetState, results: seq<bool>)
    ensures var t, from := ApplyCall(n, s, CallClose(results)), |s.trace|;
      && !t.active && t.started == 0
      && |t.trace| == from + s.started && t.trace[..from] == s.trace
      && forall j :: from <= j < |t.trace| ==>
           var index := |t.trace| - 1 - j;
           t.trace[j] == Closed(index, index >= |results| || results[index])
  {
    CloseTraceAt(s.started, results);
  }

  /** One turn of the closing loop. */
  lemma CloseOne(trace: Trace, components: seq<string>, errors: seq<string>, k: nat, results: seq<bool>)
    requires 0 < k <= |components|
    ensures var ok := Succeeds(results, k - 1);
      && (trace + [Closed(k - 1, ok)]) + CloseTrace(k - 1, results) == trace + CloseTrace(k, results)
      && (errors + if ok then [] else [components[k - 1]]) + CloseErrors(components, k - 1, results)
         == errors + CloseErrors(components, k, results)
  {
  }

  /** How far a start gets among `n` components. */
  function Reached(n: nat, failsAt: Option<nat>): nat {
    if failsAt.Some? && failsAt.value < n then failsAt.value else n
  }

  function ApplyCall(n: nat, s: SetState, call: Call): SetState {
    match call
    case CallStart(failsAt) =>
      if s.active then s
      else
        var k := Reached(n, failsAt);
        SetState(true, if k == 0 then s.started else k,
                 s.trace + StartTrace(k) + (if k < n then [StartFailed(k)] else []))
    case CallClose(results) => SetState(false, 0, s.trace + CloseTrace(s.started, results))
  }

  predicate Disciplined(n: nat, s: SetState) {
    && s.started <= n && (!s.active ==> s.started == 0)
    && OpenAfter(s.trace) == Some(UpTo(s.started))
  }

  lemma {:induction false} StartDisciplined(trace: Trace, k: nat)
    requires OpenAfter(trace) == Some([])
    ensures OpenAfter(trace + StartTrace(k)) == Some(UpTo(k))
  {
    if k == 0 {
      assert trace + StartTrace(0) == trace;
    } else {
      StartDisciplined(trace, k - 1);
      var t := trace + StartTrace(k);
      assert t == (trace + StartTrace(k - 1)) + [Started(k - 1)];
      assert t[..|t| - 1] == trace + StartTrace(k - 1);
    }
  }

  lemma {:induction false} CloseDisciplined(trace: Trace, k: nat, results: seq<bool>)
    requires OpenAfter(trace) == Some(UpTo(k))
    ensures OpenAfter(trace + CloseTrace(k, results)) == Some([])
    decreases k
  {
    if k == 0 {
      assert trace + CloseTrace(0, results) == trace;
    } else {
      var t := trace + [Closed(k - 1, Succeeds(results, k - 1))];
      assert t[..|t| - 1] == trace;
      UpToLength(k - 1);
      assert UpTo(k)[..k - 1] == UpTo(k - 1) && UpTo(k)[k - 1] == k - 1;
      assert OpenAfter(t) == Some(UpTo(k - 1));
      CloseDisciplined(t, k - 1, results);
      assert t + CloseTrace(k - 1, results) == trace + CloseTrace(k, results);
    }
  }

  lemma {:induction false} UpToLength(n: nat)
    ensures |UpTo(n)| == n
  {
    if n > 0 {
      UpToLength(n - 1);
    }
  }

  /** Every call keeps the discipline; a close leaves nothing open. */
  lemma CallDisciplined(n: nat, s: SetState, call: Call)
    requires Disciplined(n, s)
    ensures Disciplined(n, ApplyCall(n, s, call))
  {
    match call
    case CallClose(results) => CloseDisciplined(s.trace, s.started, results);
    case CallStart(failsAt) =>
      if !s.active {
        var k := Reached(n, failsAt);
        StartDisciplined(s.trace, k);
        var t := s.trace + StartTrace(k);
        assert (t + [StartFailed(k)])[..|t|] == t;
        assert t + [] == t;
      }
  }

  const FRESH := SetState(false, 0, [])

  function ApplyCalls(n: nat, calls: seq<Call>): SetState {
    if calls == [] then FRESH else ApplyCall(n, ApplyCalls(n, calls[..|calls| - 1]), calls[|calls| - 1])
  }

  /**
   Over any sequence of Start and Close calls with any component failures: components are closed in the reverse of the
   order in which they were started, a component whose start failed is never closed, and each start is closed at most
   once - exactly once if the last call was a Close.
   */
  lemma {:induction false} CallsDisciplined(n: nat, calls: seq<Call>, i: nat)
    ensures var s := ApplyCalls(n, calls);
      && Disciplined(n, s)
      && Starts(s.trace, i) == Closes(s.trace, i) + (if i < s.started then 1 else 0)
      && (calls != [] && calls[|calls| - 1].CallClose? ==> Starts(s.trace, i) == Closes(s.trace, i))
  {
    if calls != [] {
      CallsDisciplined(n, calls[..|calls| - 1], i);
      CallDisciplined(n, ApplyCalls(n, calls[..|calls| - 1]), calls[|calls| - 1]);
    }
    var s := ApplyCalls(n, calls);
    StartsAndCloses(s.trace, i);
    OccurrencesUpTo(s.started, i);
  }

  lemma {:induction false} OccurrencesUpTo(n: nat, i: nat)
    ensures Occurrences(UpTo(n), i) == if i < n then 1 else 0
  {
    if n > 0 {
      OccurrencesUpTo(n - 1, i);
      assert (UpTo(n - 1) + [n - 1])[..|UpTo(n - 1)|] == UpTo(n - 1);
    }
  }

  // ---------- The set as it is written ----------

  datatype Check = Check(name: string, ready: bool)

  class Set {
    const components: seq<string>
    var active: bool
    var started: nat
    /** Every call that reached a component. */
    var trace: Trace

    function State(): SetState
      reads this
    {
      SetState(active, started, trace)
    }

    ghost predicate Valid()
      reads this
    {
      Disciplined(|components|, State())
    }

    constructor (components: seq<string>)
      ensures this.components == components && State() == FRESH && Valid()
    {
      this.components := components;
      active, started, trace := false, 0, [];
    }

    /** Start: refuses a second start; otherwise starts in order and stops at the first failure. */
    method Start(failsAt: Option<nat>) returns (ok: bool)
      requires Valid()
      modifies this
      ensures Valid() && State() == ApplyCall(|components|, old(State()), CallStart(failsAt))
      ensures ok <==> !old(active) && (failsAt.None? || failsAt.value >= |components|)
      ensures old(active) ==> active && started == old(started) && trace == old(trace)
      ensures !old(active) ==>
        && active && started == (if failsAt.Some? && failsAt.value < |components| then failsAt.value else |components|)
        && |trace| == |old(trace)| + (if started < |components| then started + 1 else started)
        && trace[..|old(trace)|] == old(trace)
        && (forall j :: |old(trace)| <= j < |old(trace)| + started ==> trace[j] == Started(j - |old(trace)|))
        && (started < |components| ==> trace[|old(trace)| + started] == StartFailed(started))
    {
      CallDisciplined(|components|, State(), CallStart(failsAt));
      if active {
        return false;
      }
      StartInFull(|components|, State(), failsAt);
      active := true;
      ok := StartInOrder(failsAt);
    }

    /** The loop over the components, up to the first that fails to start. */
    method StartInOrder(failsAt: Option<nat>) returns (ok: bool)
      requires started == 0
      modifies this`started, this`trace
      ensures ok <==> Reached(|components|, failsAt) == |components|
      ensures started == Reached(|components|, failsAt)
      ensures trace ==
        old(trace) + StartTrace(started) + (if started < |components| then [StartFailed(started)] else [])
    {
      for index := 0 to |components|
        invariant index <= Reached(|components|, failsAt)
        invariant started == index
        invariant trace == old(trace) + StartTrace(index)
      {
        if failsAt == Some(index) {
          trace := trace + [StartFailed(index)];
          return false;
        }
        trace := trace + [Started(index)];
        started := index + 1;
        assert trace == old(trace) + (StartTrace(index) + [Started(index)]);
      }
      assert trace + [] == trace;
      return true;
    }

    /** Close: closes what was started, latest first, and attempts every close; reports exactly the failing ones. */
    method Close(results: seq<bool>) returns (errors: seq<string>)
      requires Valid()
      modifies this
      ensures Valid() && State() == ApplyCall(|components|, old(State()), CallClose(results))
      ensures OpenAfter(trace) == Some([])
      ensures errors == CloseErrors(components, old(started), results)
      ensures !active && started == 0 && |trace| == |old(trace)| + old(started) && trace[..|old(trace)|] == old(trace)
      ensures forall j :: |old(trace)| <= j < |trace| ==>
        var index := |trace| - 1 - j;
        trace[j] == Closed(index, index >= |results| || results[index])
    {
      CloseInFull(|components|, State(), results);
      CallDisciplined(|components|, State(), CallClose(results));
      errors := [];
      var index := started;
      while index > 0
        invariant 0 <= index <= started && started == old(started)
        invariant trace + CloseTrace(index, results) == old(trace) + CloseTrace(started, results)
        invariant errors + CloseErrors(components, index, results) == CloseErrors(components, started, results)
      {
        CloseOne(trace, components, errors, index, results);
        index := index - 1;
        var ok := Succeeds(results, index);
        trace := trace + [Closed(index, ok)];
        errors := errors + if ok then [] else [components[index]];
      }
      assert trace + CloseTrace(0, results) == trace;
      started := 0;
      active := false;
    }

    /** Readiness: ready exactly when every component was started and passes its check. */
    method Readiness(healthy: seq<bool>) returns (ready: bool, checks: seq<Check>)
      requires Valid() && |healthy| == |components|
      ensures |checks| == |components| && forall i :: 0 <= i < |checks| ==> checks[i].name == components[i]
      ensures ready <==> active && started == |components| && forall i :: 0 <= i < |healthy| ==> healthy[i]
      ensures forall i :: 0 <= i < |checks| ==>
        checks[i].ready == if active && started == |components| then healthy[i] else i < started
    {
      var filled := new Check[|components|](_ => Check("", false));
      ready := active && started == |components|;
      if !active || started != |components| {
        for index := 0 to |components|
          invariant forall i :: 0 <= i < index ==> filled[i] == Check(components[i], i < started)
        {
          filled[index] := Check(components[index], index < started);
        }
        return ready, filled[..];
      }
      for index := 0 to |components|
        invariant forall i :: 0 <= i < index ==> filled[i] == Check(components[i], healthy[i])
      {
        filled[index] := Check(components[index], healthy[index]);
      }
      for index := 0 to |components|
        invariant ready && forall i :: 0 <= i < index ==> healthy[i]
      {
        if !filled[index].ready {
          return false, filled[..];
        }
      }
      return ready, filled[..];
    }
  }

  /** NewSet: a positive timeout, no missing component, and distinct non-empty names. */
  method CheckComponents(timeout: int, names: seq<Option<string>>) returns (ok: bool)
    ensures ok <==>
      && timeout > 0
      && (forall i :: 0 <= i < |names| ==> names[i].Some? && names[i].value != "")
      && (forall i, j :: 0 <= i < j < |names| ==> names[i] != names[j])
  {
    if timeout <= 0 {
      return false;
    }
    var seen: set<string> := {};
    for index := 0 to |names|
      invariant forall i :: 0 <= i < index ==> names[i].Some? && names[i].value != "" && names[i].value in seen
      invariant forall i, j :: 0 <= i < j < index ==> names[i] != names[j]
      invariant forall s :: s in seen ==> exists i :: 0 <= i < index && names[i] == Some(s)
    {
      if names[index].None? {
        return false;
      }
      var name := names[index].value;
      if name == "" {
        return false;
      }
      if name in seen {
        return false;
      }
      seen := seen + {name};
    }
    return true;
  }

  // ---------- The runtime ----------

  datatype Serve = ContextDone | ServerClosed | ServerFailed

  /** What the environment decides about one run of the process. */
  datatype RunEnvironment = RunEnvironment(
    startFailsAt: Option<nat>, listens: bool, serve: Serve, shutdownOk: bool, closeResults: seq<bool>)

  method CloseAfterStartupFailure(set': Set, env: RunEnvironment, cause: string) returns (errors: seq<string>)
    requires set'.Valid()
    modifies set'
    ensures set'.Valid() && set'.State() == ApplyCall(|set'.components|, old(set'.State()), CallClose(env.closeResults))
    ensures errors == [cause] + CloseErrors(set'.components, old(set'.started), env.closeResults)
  {
    var closeErrors := set'.Close(env.closeResults);
    return [cause] + closeErrors;
  }

  /**
   Run: on every return path everything that was started has been closed, exactly once and in reverse order; the errors
   are those of the stages that failed, in order, followed by those of the closes; and there are none if and only if
   every stage of the run succeeded.
   */
  method Run(set': Set, env: RunEnvironment) returns (errors: seq<string>)
    requires set'.Valid()
    modifies set'
    ensures set'.Valid() && !set'.active && set'.started == 0
    ensures OpenAfter(set'.trace) == Some([])
    ensures forall i: nat :: Starts(set'.trace, i) == Closes(set'.trace, i)
    ensures set'.State() == ApplyCall(|set'.components|,
      ApplyCall(|set'.components|, old(set'.State()), CallStart(env.startFailsAt)), CallClose(env.closeResults))
    ensures errors ==
      var n := |set'.components|;
      var reached := if env.startFailsAt.Some? && env.startFailsAt.value < n then env.startFailsAt.value else n;
      if old(set'.active) then ["start"] + CloseErrors(set'.components, old(set'.started), env.closeResults)
      else if reached < n then ["start"] + CloseErrors(set'.components, reached, env.closeResults)
      else if !env.listens then ["listen"] + CloseErrors(set'.components, n, env.closeResults)
      else (if env.serve == ServerFailed then ["serve"] else []) + (if env.shutdownOk then [] else ["shutdown"])
           + CloseErrors(set'.components, n, env.closeResults)
    ensures errors == [] <==>
      && !old(set'.active) && (env.startFailsAt.None? || env.startFailsAt.value >= |set'.components|)
      && env.listens && !env.serve.ServerFailed? && env.shutdownOk
      && forall i :: 0 <= i < |set'.components| ==> Succeeds(env.closeResults, i)
  {
    var started := set'.Start(env.startFailsAt);
    if !started {
      errors := CloseAfterStartupFailure(set', env, "start");
    } else if !env.listens {
      errors := CloseAfterStartupFailure(set', env, "listen");
    } else {
      var runErrors := if env.serve.ServerFailed? then ["serve"] else [];
      var serverErrors := if env.shutdownOk then [] else ["shutdown"];
      var dependencyErrors := set'.Close(env.closeResults);
      errors := runErrors + serverErrors + dependencyErrors;
      NoCloseErrors(set'.components, |set'.components|, env.closeResults);
    }
    forall i: nat
      ensures Starts(set'.trace, i) == Closes(set'.trace, i)
    {
      StartsAndCloses(set'.trace, i);
    }
  }
}
