/** The lifecycle hook ledger (lifecycle.go): an append-only list of
    (OnStart, OnStop) hooks and a cursor counting the hooks that started.
    Every user callback the ledger invokes is recorded in the ghost `calls`. */
module LifecycleLedger {
  import opened Base

  /** One invocation of a hook callback. */
  datatype Call = StartCall(f: Callback) | StopCall(f: Callback)

  /** The hook's OnStart is present and returns an error. */
  predicate StartFails(h: Hook) {
    h.onStart.Some? && h.onStart.value.Fails()
  }

  /** The invocation made for hook `h` by Start (none when OnStart is nil). */
  function StartOf(h: Hook): seq<Call> {
    if h.onStart.Some? then [StartCall(h.onStart.value)] else []
  }

  /** The invocation made for hook `h` by Stop (none when OnStop is nil). */
  function StopOf(h: Hook): seq<Call> {
    if h.onStop.Some? then [StopCall(h.onStop.value)] else []
  }

  /** The error Stop collects for hook `h`. */
  function StopErrorOf(h: Hook): seq<Error> {
    if h.onStop.Some? && h.onStop.value.Fails() then [h.onStop.value.result.value] else []
  }

  /** The OnStart invocations of running `hs` front to back. */
  function StartCalls(hs: seq<Hook>): seq<Call> {
    if hs == [] then [] else StartCalls(hs[..|hs| - 1]) + StartOf(hs[|hs| - 1])
  }

  /** The OnStop callbacks of `hs` in insertion order. */
  function ForwardStops(hs: seq<Hook>): seq<Call> {
    if hs == [] then [] else ForwardStops(hs[..|hs| - 1]) + StopOf(hs[|hs| - 1])
  }

  /** The number of hooks before the first one whose OnStart fails
      (|hs| when none fails). */
  function FirstFailure(hs: seq<Hook>): (k: nat)
    ensures k <= |hs|
    ensures forall j :: 0 <= j < k ==> !StartFails(hs[j])
    ensures k < |hs| ==> StartFails(hs[k])
  {
    if hs == [] then 0
    else if StartFails(hs[0]) then 0
    else 1 + FirstFailure(hs[1..])
  }

  /** The OnStop invocations of Stop with cursor `n`: hook n-1 first. */
  function StopCalls(hs: seq<Hook>, n: nat): seq<Call>
    requires n <= |hs|
  {
    if n == 0 then [] else StopOf(hs[n - 1]) + StopCalls(hs, n - 1)
  }

  /** The errors Stop with cursor `n` returns, in invocation order. */
  function StopErrors(hs: seq<Hook>, n: nat): seq<Error>
    requires n <= |hs|
  {
    if n == 0 then [] else StopErrorOf(hs[n - 1]) + StopErrors(hs, n - 1)
  }

  /** Start has passed the first `i` hooks, none of which failed, and
      added their OnStart calls to `c0`, giving `c`. */
  ghost predicate StartsFrom(hs: seq<Hook>, i: nat, c0: seq<Call>, c: seq<Call>) {
    i <= |hs| && (forall j :: 0 <= j < i ==> !StartFails(hs[j])) && c == c0 + StartCalls(hs[..i])
  }

  /** One iteration of Start: hook `i` adds its OnStart call. */
  lemma StartStep(hs: seq<Hook>, i: nat, c0: seq<Call>, c: seq<Call>, c': seq<Call>)
    requires i < |hs| && StartsFrom(hs, i, c0, c) && c' == c + StartOf(hs[i])
    ensures c' == c0 + StartCalls(hs[..i + 1])
    ensures !StartFails(hs[i]) ==> StartsFrom(hs, i + 1, c0, c')
  {
    assert hs[..i + 1][..i] == hs[..i];
  }

  /** Stop with cursor `n`, from calls `c` and errors `r`, ends with calls
      `fc` and errors `fe`. */
  ghost predicate StopsTo(hs: seq<Hook>, n: nat, c: seq<Call>, r: seq<Error>, fc: seq<Call>, fe: seq<Error>) {
    n <= |hs| && fc == c + StopCalls(hs, n) && fe == r + StopErrors(hs, n)
  }

  /** One iteration of Stop: the hook under the cursor contributes its
      call and its error ahead of the hooks below it. */
  lemma StopStep(hs: seq<Hook>, n: nat, c: seq<Call>, r: seq<Error>, fc: seq<Call>, fe: seq<Error>,
                 c': seq<Call>, r': seq<Error>)
    requires 0 < n && StopsTo(hs, n, c, r, fc, fe)
    requires c' == c + StopOf(hs[n - 1]) && r' == r + StopErrorOf(hs[n - 1])
    ensures StopsTo(hs, n - 1, c', r', fc, fe)
  {
    assert c + (StopOf(hs[n - 1]) + StopCalls(hs, n - 1)) == c' + StopCalls(hs, n - 1);
    assert r + (StopErrorOf(hs[n - 1]) + StopErrors(hs, n - 1)) == r' + StopErrors(hs, n - 1);
  }

  /** The errors returned by the failing callbacks among `cs`, in order. */
  function Failures(cs: seq<Call>): seq<Error> {
    if cs == [] then []
    else (if cs[0].f.Fails() then [cs[0].f.result.value] else []) + Failures(cs[1..])
  }

  lemma {:induction false} FailuresConcat(a: seq<Call>, b: seq<Call>)
    ensures Failures(a + b) == Failures(a) + Failures(b)
  {
    if a != [] {
      assert (a + b)[1..] == a[1..] + b;
      FailuresConcat(a[1..], b);
    } else {
      assert a + b == b;
    }
  }

  /** Stop invokes the OnStop callbacks of the started hooks in exactly the
      reverse of their insertion order. */
  lemma {:induction false} StopCallsReversed(hs: seq<Hook>, n: nat)
    requires n <= |hs|
    ensures StopCalls(hs, n) == Reverse(ForwardStops(hs[..n]))
  {
    if n > 0 {
      StopCallsReversed(hs, n - 1);
      assert hs[..n][..n - 1] == hs[..n - 1];
      ReverseConcat(ForwardStops(hs[..n - 1]), StopOf(hs[n - 1]));
      assert Reverse(StopOf(hs[n - 1])) == StopOf(hs[n - 1]);
    }
  }

  /** Hooks at or beyond the cursor never influence Stop: only hooks whose
      OnStart ran are stopped. */
  lemma {:induction false} StopOnlyStarted(hs: seq<Hook>, hs': seq<Hook>, n: nat)
    requires n <= |hs| && n <= |hs'| && hs[..n] == hs'[..n]
    ensures StopCalls(hs, n) == StopCalls(hs', n)
    ensures StopErrors(hs, n) == StopErrors(hs', n)
  {
    if n > 0 {
      assert hs[n - 1] == hs[..n][n - 1] == hs'[n - 1];
      assert hs[..n - 1] == hs[..n][..n - 1] == hs'[..n - 1];
      StopOnlyStarted(hs, hs', n - 1);
    }
  }

  /** Stop returns the error of every failing OnStop it invokes, in
      invocation order (it keeps going after an error). */
  lemma {:induction false} StopErrorsAreFailures(hs: seq<Hook>, n: nat)
    requires n <= |hs|
    ensures StopErrors(hs, n) == Failures(StopCalls(hs, n))
  {
    if n > 0 {
      StopErrorsAreFailures(hs, n - 1);
      FailuresConcat(StopOf(hs[n - 1]), StopCalls(hs, n - 1));
      if hs[n - 1].onStop.Some? {
        assert StopOf(hs[n - 1])[1..] == [];
      }
    }
  }

  /** After a Start from a zero cursor fails at hook k, the rolled-back Stop
      invokes the OnStop of hooks 0..k-1 only, last first. */
  lemma RollbackAfterFailedStart(hs: seq<Hook>)
    requires FirstFailure(hs) < |hs|
    ensures var k := FirstFailure(hs);
      StopCalls(hs, k) == Reverse(ForwardStops(hs[..k])) &&
      StopCalls(hs, k) == StopCalls(hs[..k], k)
  {
    var k := FirstFailure(hs);
    StopCallsReversed(hs, k);
    assert hs[..k][..k] == hs[..k];
    StopOnlyStarted(hs, hs[..k], k);
  }

  /** Three hooks whose second OnStart fails: Start invokes S1 and S2 and
      stops with S2's error; the rollback stops only the first hook. */
  lemma ThreeHookRollback(s1: Callback, s2: Callback, s3: Callback,
                          t1: Callback, t2: Callback, t3: Callback)
    requires !s1.Fails() && s2.Fails()
    ensures var hs := [Hook(Some(s1), Some(t1)), Hook(Some(s2), Some(t2)), Hook(Some(s3), Some(t3))];
      FirstFailure(hs) == 1 &&
      StartCalls(hs[..FirstFailure(hs) + 1]) == [StartCall(s1), StartCall(s2)] &&
      StopCalls(hs, FirstFailure(hs)) == [StopCall(t1)]
  {
    var hs := [Hook(Some(s1), Some(t1)), Hook(Some(s2), Some(t2)), Hook(Some(s3), Some(t3))];
    assert StartFails(hs[1]) && !StartFails(hs[0]);
    assert hs[1..][0] == hs[1];
    assert FirstFailure(hs) == 1;
    assert hs[..2][..1] == [hs[0]];
    assert [hs[0]][..0] == [];
    assert StartCalls([hs[0]]) == [StartCall(s1)];
    assert StartCalls(hs[..2]) == StartCalls([hs[0]]) + StartOf(hs[1]);
  }

  class Lifecycle {
    var hooks: seq<Hook>
    var numStarted: nat
    ghost var calls: seq<Call>

    /** `new(lifecycleImpl)`: no hooks, nothing started. */
    constructor ()
      ensures hooks == [] && numStarted == 0 && calls == []
    {
      hooks, numStarted, calls := [], 0, [];
    }

    /** Places the hook at the end; earlier hooks and the cursor stay. */
    method Append(hook: Hook)
      modifies this
      ensures hooks == old(hooks) + [hook]
      ensures numStarted == old(numStarted) && calls == old(calls)
    {
      hooks := hooks + [hook];
    }

    /** Runs the OnStart hooks front to back and returns the first error.
        The cursor grows by one per hook passed (nil OnStart included) and
        the failing hook is not counted. The loop starts at index 0 whatever
        the cursor is, so the cursor ends at old(numStarted) + k. */
    method Start() returns (err: Option<Error>)
      modifies this
      ensures hooks == old(hooks)
      ensures numStarted == old(numStarted) + FirstFailure(hooks)
      ensures err.Some? <==> FirstFailure(hooks) < |hooks|
      ensures var k := FirstFailure(hooks);
        k < |hooks| ==> err == hooks[k].onStart.value.result && calls == old(calls) + StartCalls(hooks[..k + 1])
      ensures FirstFailure(hooks) == |hooks| ==> err.None? && calls == old(calls) + StartCalls(hooks)
    {
      var i := 0;
      assert calls == old(calls) + [];
      while i < |hooks|
        invariant hooks == old(hooks) && numStarted == old(numStarted) + i
        invariant StartsFrom(hooks, i, old(calls), calls)
      {
        ghost var c := calls;
        var hook := hooks[i];
        if hook.onStart.Some? {
          calls := calls + [StartCall(hook.onStart.value)];
          var e := hook.onStart.value.result;
          if e.Some? {
            StartStep(hooks, i, old(calls), c, calls);
            return e;
          }
        }
        StartStep(hooks, i, old(calls), c, calls);
        numStarted := numStarted + 1;
        i := i + 1;
      }
      assert hooks[..i] == hooks;
      err := None;
    }

    /** Runs the OnStop hooks of the started hooks from the cursor down,
        collecting every error, and resets the cursor. A cursor beyond
        |hooks| would make the source index out of range. */
    method Stop() returns (errs: seq<Error>)
      requires numStarted <= |hooks|
      modifies this
      ensures hooks == old(hooks) && numStarted == 0
      ensures calls == old(calls) + StopCalls(hooks, old(numStarted))
      ensures errs == StopErrors(hooks, old(numStarted))
    {
      errs := [];
      ghost var fc, fe := old(calls) + StopCalls(hooks, numStarted), StopErrors(hooks, numStarted);
      assert [] + StopErrors(hooks, numStarted) == fe;
      while numStarted > 0
        invariant hooks == old(hooks)
        invariant StopsTo(hooks, numStarted, calls, errs, fc, fe)
      {
        ghost var c, r := calls, errs;
        var hook := hooks[numStarted - 1];
        if hook.onStop.Some? {
          calls := calls + [StopCall(hook.onStop.value)];
          var e := hook.onStop.value.result;
          if e.Some? {
            errs := errs + [e.value];
          }
        }
        StopStep(hooks, numStarted, c, r, fc, fe, calls, errs);
        numStarted := numStarted - 1;
      }
      assert calls + [] == calls && errs + [] == errs;
    }
  }
}
