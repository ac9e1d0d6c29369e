/** Applications (app.go), the registry that owns them (registry.go) and
    its options. Applications and the registry refer to each other (an
    application finds the applications it requires through the registry it
    was registered into), so they share a module. */
module Appx {
  import opened Base
  import opened LifecycleLedger
  import opened InstallOrder
  import opened UninstallOrder

  /** The ghost record of the installs, clean-ups and error-handler calls
      that happen through one registry. */
  class Trace {
    ghost var events: seq<Event<App>>

    constructor ()
      ensures events == []
    {
      events := [];
    }
  }

  /** Options.ErrorHandler: nil, the do-nothing handler `init` installs, or
      a handler of the user's. */
  datatype Handler = Discard | UserHandler(id: nat)

  /** 15 * time.Second, in nanoseconds (a time.Duration). */
  const DefaultTimeout: int := 15_000_000_000

  class Options {
    var startTimeout: int
    var stopTimeout: int
    var errorHandler: Option<Handler>

    /** `new(Options)`: every field zero. */
    constructor ()
      ensures startTimeout == 0 && stopTimeout == 0 && errorHandler == None
    {
      startTimeout, stopTimeout, errorHandler := 0, 0, None;
    }

    /** Fills in the defaults for the fields left zero and keeps the rest. */
    method Init()
      modifies this
      ensures startTimeout == (if old(startTimeout) == 0 then DefaultTimeout else old(startTimeout))
      ensures stopTimeout == (if old(stopTimeout) == 0 then DefaultTimeout else old(stopTimeout))
      ensures errorHandler == (if old(errorHandler).None? then Some(Discard) else old(errorHandler))
      ensures startTimeout != 0 && stopTimeout != 0 && errorHandler.Some?
    {
      if startTimeout == 0 {
        startTimeout := DefaultTimeout;
      }
      if stopTimeout == 0 {
        stopTimeout := DefaultTimeout;
      }
      if errorHandler.None? {
        errorHandler := Some(Discard);
      }
    }
  }

  /** The views of the applications of `apps`. */
  ghost function Views(apps: seq<App>): (vs: map<App, View>)
    reads Elems(apps)
    ensures forall i :: 0 <= i < |apps| ==> apps[i] in vs
  {
    map x | x in apps :: x.Viewed()
  }

  /** The error-handler calls for `errs`, in order. */
  function HandledAll(errs: seq<Error>): (E: seq<Event<App>>)
    ensures |E| == |errs| && forall i :: 0 <= i < |errs| ==> E[i] == Handled(errs[i])
  {
    if errs == [] then [] else HandledAll(errs[..|errs| - 1]) + [Handled(errs[|errs| - 1])]
  }

  lemma HandledStep(errs: seq<Error>, i: nat)
    requires i < |errs|
    ensures HandledAll(errs[..i + 1]) == HandledAll(errs[..i]) + [Handled(errs[i])]
  {
    assert errs[..i + 1][..i] == errs[..i];
  }

  /** The registries the applications of `U` look their requirements up in. */
  ghost function RegistriesOf(U: set<App>): set<Registry>
    reads U`registry
  {
    set x | x in U && x.registry != null :: x.registry
  }

  /** `U` holds every application reachable from its members: the required
      applications they resolved and those their registries can resolve;
      each resolved required application is the one its registry has under
      that name. */
  ghost predicate Closed(U: set<App>)
    reads U`requiredNames, U`requiredApps, U`registry, RegistriesOf(U)`registered
  {
    forall x {:trigger Member(U, x)} :: x in U && Member(U, x) ==>
      x.Wf() && x.FromRegistry() && x.requiredApps.Values <= U &&
      (x.registry != null ==> x.registry.registered.Values <= U)
  }

  /** `x in U`, under a name of its own so that facts about the members of
      `U` are drawn only for the applications a proof names. */
  ghost predicate Member(U: set<App>, x: App) {
    x in U
  }

  /** The applications of `U` that are installed. */
  ghost function InstalledIn(U: set<App>): set<App>
    reads U`state
  {
    set x | x in U && x.state == Installed
  }

  /** The applications of `U` an install may still move: Fresh or
      Uninstalled ones. */
  ghost function PendingIn(U: set<App>): set<App>
    reads U`state
  {
    set x | x in U && x.state.Pending()
  }

  /** The applications of `U` that are Uninstalled. */
  ghost function UninstalledIn(U: set<App>): set<App>
    reads U`state
  {
    set x | x in U && x.state == Uninstalled
  }

  /** The state of each application of `U` is the one its membership of
      the installed, pending and Uninstalled applications tells. */
  lemma StatesIn(U: set<App>)
    ensures InstalledIn(U) !! PendingIn(U) && UninstalledIn(U) <= PendingIn(U)
    ensures forall x :: x in U ==> x.state == StateIn(x, InstalledIn(U), PendingIn(U), UninstalledIn(U))
  {
  }

  /** The installed, pending and Uninstalled applications of `U` are sets a
      run can start from, and the empty run leaves them so. */
  lemma RunFrom(U: set<App>)
    ensures Run(InstalledIn(U), PendingIn(U), UninstalledIn(U), InstalledIn(U), PendingIn(U), UninstalledIn(U), [])
    ensures Complete<App>([])
  {
    RunRefl(InstalledIn(U), PendingIn(U), UninstalledIn(U));
  }

  /** The registry whose hooks a run is passed, as a frame. */
  function HooksOf(r: Registry?): set<Registry> {
    if r == null then {} else {r}
  }

  /** The installed list of `r`; empty when there is no registry. */
  ghost function InstalledOf(r: Registry?): seq<App>
    reads HooksOf(r)
  {
    if r == null then [] else r.installed
  }

  /** The applications a run initialised or marked Done. */
  ghost function Moved(D: seq<Event<App>>): set<App> {
    set i | 0 <= i < |D| && (D[i].Init? || D[i].Done?) :: D[i].app
  }

  /** The application an event initialised or marked Done, if any. */
  ghost function Mover(e: Event<App>): set<App> {
    if e.Init? || e.Done? then {e.app} else {}
  }

  /** The fields of an application that an install sets. */
  datatype Fields = Fields(apps: map<string, App>, mws: seq<Middleware>, value: Value, clean: Option<Callback>)

  /** The fields an install sets, for each application of `U`. */
  ghost function Snapshot(U: set<App>): map<App, Fields>
    reads U`requiredApps, U`middlewares, U`value, U`cleanFunc
  {
    map x | x in U :: x.Current()
  }

  /** The common middlewares the before hook of `r` prepends; none without
      a registry. */
  function Prefix(r: Registry?): seq<Middleware>
    reads HooksOf(r)
  {
    if r == null then [] else r.middlewares
  }

  /** What the install run `D` leaves in the fields of `x`, which were `s`
      before it: an application the run did not mark installing keeps its
      resolved requirements; one it neither initialised nor marked Done
      keeps its middlewares, value and clean-up; one it did has the common
      middlewares `pre` prepended to its own and, when it has an init
      function, that function's value and clean-up. */
  ghost predicate FieldsAfter(x: App, s: Fields, D: seq<Event<App>>, pre: seq<Middleware>)
    reads x`requiredApps, x`middlewares, x`value, x`cleanFunc, x`initFunc
  {
    (x !in BegunApps(D) ==> x.requiredApps == s.apps) &&
    if x in Moved(D) then
      x.middlewares == pre + s.mws &&
      (x.initFunc.Some? ==> x.value == x.initFunc.value.value && x.cleanFunc == x.initFunc.value.clean) &&
      (x.initFunc.None? ==> x.value == s.value && x.cleanFunc == s.clean)
    else
      x.middlewares == s.mws && x.value == s.value && x.cleanFunc == s.clean
  }

  /** Every application of `U` has the fields FieldsAfter tells from the
      snapshot `S` and the run `D`. */
  ghost predicate Shaped(U: set<App>, S: map<App, Fields>, D: seq<Event<App>>, pre: seq<Middleware>)
    reads U`requiredApps, U`middlewares, U`value, U`cleanFunc, U`initFunc
  {
    U <= S.Keys && forall x {:trigger FieldsAfter(x, S[x], D, pre)} :: x in U ==> FieldsAfter(x, S[x], D, pre)
  }

  /** A step `E` of an install run `D` that may set the fields of the
      application `a` only, as ShapedStep sees it. */
  datatype Step = Step(U: set<App>, S: map<App, Fields>, D: seq<Event<App>>, E: seq<Event<App>>,
                       pre: seq<Middleware>, a: App)

  /** A step that leaves the other applications' fields alone, and moves or
      marks installing none of them, keeps the fields of `U` shaped by the
      run so far when it keeps those of `a`. */
  twostate lemma ShapedStep(k: Step)
    requires old(Shaped(k.U, k.S, k.D, k.pre))
    requires forall x :: x in k.U && x != k.a ==>
      old(allocated(x)) && unchanged(x`requiredApps, x`middlewares, x`value, x`cleanFunc, x`initFunc) &&
      (x in Moved(k.D + k.E) <==> x in Moved(k.D)) && (x in BegunApps(k.D + k.E) <==> x in BegunApps(k.D))
    requires k.a in k.U ==> FieldsAfter(k.a, k.S[k.a], k.D + k.E, k.pre)
    ensures Shaped(k.U, k.S, k.D + k.E, k.pre)
  {
    forall x | x in k.U ensures FieldsAfter(x, k.S[x], k.D + k.E, k.pre) {
      assert old(FieldsAfter(x, k.S[x], k.D, k.pre));
    }
  }

  /** The arguments of Shaped, as ShapedKept sees them. */
  datatype Shape = Shape(U: set<App>, S: map<App, Fields>, D: seq<Event<App>>, pre: seq<Middleware>)

  /** Shaped depends only on the fields an install sets and on the init
      functions. */
  twostate lemma ShapedKept(k: Shape)
    requires old(Shaped(k.U, k.S, k.D, k.pre))
    requires forall x :: x in k.U ==>
      old(allocated(x)) && unchanged(x`requiredApps, x`middlewares, x`value, x`cleanFunc, x`initFunc)
    ensures Shaped(k.U, k.S, k.D, k.pre)
  {
  }

  /** Before any run, the applications of `U` have the fields of their
      snapshot. */
  lemma ShapedRefl(U: set<App>, pre: seq<Middleware>)
    ensures Shaped(U, Snapshot(U), [], pre)
  {
    var S := Snapshot(U);
    forall x | x in U ensures FieldsAfter(x, S[x], [], pre) {
      assert S[x] == x.Current();
    }
  }

  /** Every init call and Done mark of the run `D` was made with the
      application's own resolved requirements, which cover its required
      names, and with its own init function. */
  ghost predicate Tied(D: seq<Event<App>>)
    reads Moved(D)`requiredApps, Moved(D)`requiredNames, Moved(D)`initFunc
  {
    forall i {:trigger TiedEvent(D[i])} :: 0 <= i < |D| ==> TiedEvent(D[i])
  }

  /** The one-event case of Tied. */
  ghost predicate TiedEvent(e: Event<App>)
    reads Mover(e)`requiredApps, Mover(e)`requiredNames, Mover(e)`initFunc
  {
    (e.Init? || e.Done?) ==>
      e.apps == e.app.requiredApps && e.apps.Keys == e.app.requiredNames &&
      (e.Init? ==> e.app.initFunc == Some(e.f)) && (e.Done? ==> e.app.initFunc == e.init)
  }

  /** Marking an application installing keeps a run tied and moves no
      application. */
  lemma TiedBegun(D: seq<Event<App>>, a: App)
    requires Tied(D)
    ensures Tied(D + [Begun(a)]) && Moved(D + [Begun(a)]) == Moved(D)
  {
    var B := [Begun(a)];
    MovedConcat(D, B);
    assert Moved(B) == {};
    assert Tied(B) by {
      forall i | 0 <= i < |B| ensures TiedEvent(B[i]) {
      }
    }
    TiedConcat(D, B);
  }

  /** The last step of an install run is taken with the application's own
      resolved requirements and init function. */
  lemma TiedFinish(a: App, done: bool)
    requires a.requiredApps.Keys == a.requiredNames
    ensures Tied(FinishEvents(a, a.requiredApps, a.initFunc, done))
  {
    var E := FinishEvents(a, a.requiredApps, a.initFunc, done);
    forall i | 0 <= i < |E| ensures TiedEvent(E[i]) {
      assert E[i].app == a && E[i].apps == a.requiredApps;
    }
  }

  /** The last step of an install run moves its application, and only
      it, and marks none installing. */
  lemma FinishShaped(D1: seq<Event<App>>, a: App, apps: map<string, App>, init: Option<InitFunc>, done: bool)
    requires init.Some? || done
    ensures var D := D1 + FinishEvents(a, apps, init, done);
      Moved(D) == Moved(D1) + {a} && BegunApps(D) == BegunApps(D1)
  {
    var E := FinishEvents(a, apps, init, done);
    MovedConcat(D1, E);
    FinishMoved(a, apps, init, done);
    BegunConcat(D1, E);
    FinishLists(a, apps, init, done);
  }

  /** The last step of an install run on `a` moves `a` alone. */
  lemma FinishMoved(a: App, apps: map<string, App>, init: Option<InitFunc>, done: bool)
    requires init.Some? || done
    ensures Moved(FinishEvents(a, apps, init, done)) == {a}
  {
    var E := FinishEvents(a, apps, init, done);
    assert E[0].app == a && (E[0].Init? || E[0].Done?);
    forall x | x in Moved(E) ensures x == a {
      var i :| 0 <= i < |E| && (E[i].Init? || E[i].Done?) && E[i].app == x;
    }
  }

  /** The values of `deps` are installed when each of its keys' is. */
  lemma ValuesInstalled(deps: map<string, App>, U: set<App>)
    requires forall m :: m in deps.Keys - {} ==> deps[m] in InstalledIn(U)
    ensures forall y :: y in deps.Values ==> y.state == Installed
  {
    forall y | y in deps.Values ensures y.state == Installed {
      var m :| m in deps && deps[m] == y;
      assert m in deps.Keys - {};
    }
  }

  /** One more name of `names` done: its application is in the grown set
      `S1`. */
  lemma NamesDone(names: seq<string>, i: nat, reg: map<string, App>, S0: set<App>, S1: set<App>)
    requires i < |names| && names[i] in reg && reg[names[i]] in S1 && S0 <= S1
    requires forall k :: 0 <= k < i ==> names[k] in reg && reg[names[k]] in S0
    ensures forall k :: 0 <= k < i + 1 ==> names[k] in reg && reg[names[k]] in S1
  {
  }

  /** One more key of `deps` done: its value is in the grown set `S1`. */
  lemma KeysDone(deps: map<string, App>, todo: set<string>, n: string, S0: set<App>, S1: set<App>)
    requires n in todo && todo <= deps.Keys && S0 <= S1 && deps[n] in S1
    requires forall m :: m in deps.Keys - todo ==> deps[m] in S0
    ensures forall m :: m in deps.Keys - (todo - {n}) ==> deps[m] in S1
  {
  }

  /** A run that begins by marking `a` installing logs what the rest of
      it logs and is tied when the rest is. */
  lemma BegunRun(D0: seq<Event<App>>, a: App, Dr: seq<Event<App>>, hs: seq<Hook>, ins: seq<App>,
                 h0: seq<Hook>, i0: seq<App>, keep: bool)
    requires Logs(hs, ins, h0, i0, Dr, keep) && Tied((D0 + [Begun(a)]) + Dr)
    ensures Logs(hs, ins, h0, i0, [Begun(a)] + Dr, keep) && Tied(D0 + ([Begun(a)] + Dr))
    ensures (D0 + [Begun(a)]) + Dr == D0 + ([Begun(a)] + Dr)
    ensures ([Begun(a)] + Dr)[0] == Begun(a)
    ensures Dr != [] ==> ([Begun(a)] + Dr)[|Dr|] == Dr[|Dr| - 1]
  {
    BegunLists(a, Dr);
    ConcatAssoc(D0, [Begun(a)], Dr);
  }

  /** The applications moved before a run, and by it, are no longer
      pending after it. */
  lemma MovedOut(U: set<App>, D0: seq<Event<App>>, I0: set<App>, P0: set<App>, N0: set<App>,
                 I1: set<App>, P1: set<App>, N1: set<App>, D: seq<Event<App>>)
    requires Moved(D0) <= U - P0 && P0 <= U && Run(I0, P0, N0, I1, P1, N1, D)
    ensures Moved(D0 + D) <= U - P1
  {
    MovedListed(D);
    MovedConcat(D0, D);
  }

  /** The run of the required applications of `a` moves neither `a` nor
      an application outside `U`. */
  lemma MovedBelow(U: set<App>, D0: seq<Event<App>>, I0: set<App>, P0: set<App>, N0: set<App>,
                   I1: set<App>, P1: set<App>, N1: set<App>, D: seq<Event<App>>, a: App)
    requires Moved(D0) <= U - P0 && a in P0 && P0 - {a} <= U && Run(I0, P0 - {a}, N0 - {a}, I1, P1, N1, D)
    ensures Moved(D0 + D) <= U && a !in Moved(D0 + D)
  {
    MovedListed(D);
    MovedConcat(D0, D);
  }

  lemma MovedListed(D: seq<Event<App>>)
    ensures Moved(D) <= Elems(DoneApps(D)) + Elems(InitApps(D))
  {
    forall x | x in Moved(D) ensures x in Elems(DoneApps(D)) + Elems(InitApps(D)) {
      var i :| 0 <= i < |D| && (D[i].Init? || D[i].Done?) && D[i].app == x;
      Listed(D, i);
    }
  }

  lemma MovedConcat(D1: seq<Event<App>>, D2: seq<Event<App>>)
    ensures Moved(D1 + D2) == Moved(D1) + Moved(D2)
  {
    var D := D1 + D2;
    forall x | x in Moved(D) ensures x in Moved(D1) + Moved(D2) {
      var i :| 0 <= i < |D| && (D[i].Init? || D[i].Done?) && D[i].app == x;
      if i < |D1| {
        assert D[i] == D1[i];
      } else {
        assert D[i] == D2[i - |D1|];
      }
    }
    forall x | x in Moved(D1) + Moved(D2) ensures x in Moved(D) {
      if x in Moved(D1) {
        var i :| 0 <= i < |D1| && (D1[i].Init? || D1[i].Done?) && D1[i].app == x;
        assert D[i] == D1[i];
      } else {
        var i :| 0 <= i < |D2| && (D2[i].Init? || D2[i].Done?) && D2[i].app == x;
        assert D[|D1| + i] == D2[i];
      }
    }
  }

  lemma TiedConcat(D1: seq<Event<App>>, D2: seq<Event<App>>)
    requires Tied(D1) && Tied(D2)
    ensures Tied(D1 + D2)
  {
    forall i | 0 <= i < |D1 + D2| ensures TiedEvent((D1 + D2)[i]) {
      if i < |D1| {
        assert (D1 + D2)[i] == D1[i] && TiedEvent(D1[i]);
      } else {
        assert (D1 + D2)[i] == D2[i - |D1|] && TiedEvent(D2[i - |D1|]);
      }
    }
  }

  /** A step that leaves the resolved requirements, required names and
      init functions of the moved applications alone keeps a run tied. */
  twostate lemma TiedKept(D: seq<Event<App>>)
    requires old(Tied(D))
    requires forall x :: x in Moved(D) ==>
      x.requiredApps == old(x.requiredApps) &&
      x.requiredNames == old(x.requiredNames) && x.initFunc == old(x.initFunc)
    ensures Tied(D)
  {
  }

  /** Closed depends only on the requirements of the applications and on
      the registrations of their registries. */
  twostate lemma ClosedKept(U: set<App>)
    requires old(Closed(U))
    requires forall x :: x in U ==> old(allocated(x)) && unchanged(x`requiredNames, x`requiredApps, x`registry)
    requires forall g :: g in old(RegistriesOf(U)) ==> unchanged(g`registered)
    ensures Closed(U)
  {
  }

  /** The arguments of ClosedResolved. */
  datatype Resolution = Resolution(U: set<App>, a: App)

  /** Closed is kept by a step that resolves requirements of `a` alone,
      when what `a` resolved keeps it so. */
  twostate lemma ClosedResolved(k: Resolution)
    requires old(Closed(k.U)) && k.a in k.U
    requires forall x :: x in k.U && x != k.a ==>
      old(allocated(x)) && unchanged(x`requiredNames, x`requiredApps, x`registry)
    requires forall g :: g in old(RegistriesOf(k.U)) ==> unchanged(g`registered)
    requires unchanged(k.a`requiredNames, k.a`registry)
    requires k.a.Wf() && k.a.FromRegistry() && k.a.requiredApps.Values <= k.U
    ensures Closed(k.U)
  {
    forall x | x in k.U && Member(k.U, x)
      ensures x.Wf() && x.FromRegistry() && x.requiredApps.Values <= k.U &&
              (x.registry != null ==> x.registry.registered.Values <= k.U)
    {
      assert old(x.registry) in old(RegistriesOf(k.U)) || old(x.registry) == null;
    }
  }

  /** The hooks the init functions of `apps` append, in the order of
      `apps`. */
  ghost function InitHooksOf(apps: seq<App>): seq<Hook>
    reads Elems(apps)`initFunc
  {
    if apps == [] then []
    else
      var a := apps[|apps| - 1];
      InitHooksOf(apps[..|apps| - 1]) + (if a.initFunc.Some? then a.initFunc.value.hooks else [])
  }

  /** The applications of `apps` that have an init function, in order. */
  ghost function WithInit(apps: seq<App>): seq<App>
    reads Elems(apps)`initFunc
  {
    if apps == [] then []
    else
      var a := apps[|apps| - 1];
      WithInit(apps[..|apps| - 1]) + (if a.initFunc.Some? then [a] else [])
  }

  /** The Done marks of a tied run carry the applications' own init
      functions: the hooks they stand for are those of the init functions of
      the applications marked Done, and the applications marked Done with
      an init function are those of them that have one. */
  lemma {:induction false} TiedLists(D: seq<Event<App>>)
    requires Tied(D)
    ensures DoneHooks(D) == InitHooksOf(DoneApps(D)) && DoneInits(D) == WithInit(DoneApps(D))
  {
    if D != [] {
      var D', e := D[..|D| - 1], D[|D| - 1];
      assert Tied(D') by {
        forall i | 0 <= i < |D'| ensures TiedEvent(D'[i]) {
          assert D'[i] == D[i] && TiedEvent(D[i]);
        }
      }
      TiedLists(D');
      assert TiedEvent(D[|D| - 1]);
      if e.Done? {
        var L := DoneApps(D);
        assert L == DoneApps(D') + [e.app] && L[..|L| - 1] == DoneApps(D') && L[|L| - 1] == e.app;
        assert InitHooksOf(L) == InitHooksOf(DoneApps(D')) + (if e.init.Some? then e.init.value.hooks else []);
        assert WithInit(L) == WithInit(DoneApps(D')) + (if e.init.Some? then [e.app] else []);
      }
      assert DoneHooks(D) == DoneHooks(D') + (if e.Done? && e.init.Some? then e.init.value.hooks else []);
      assert DoneInits(D) == DoneInits(D') + (if e.Done? && e.init.Some? then [e.app] else []);
      assert DoneApps(D) == DoneApps(D') + (if e.Done? then [e.app] else []);
      if e.Done? {
        assert DoneHooks(D) == InitHooksOf(DoneApps(D));
        assert DoneInits(D) == WithInit(DoneApps(D));
      } else {
        assert DoneApps(D') + [] == DoneApps(D') && DoneHooks(D') + [] == DoneHooks(D');
        assert DoneInits(D') + [] == DoneInits(D');
      }
    } else {
      assert DoneApps(D) == [];
    }
  }

  /** An application is listed by WithInit exactly when it is in the list
      and has an init function. */
  lemma {:induction false} WithInitMembers(apps: seq<App>, y: App)
    ensures y in WithInit(apps) <==> y in apps && y.initFunc.Some?
  {
    if apps != [] {
      var apps' := apps[..|apps| - 1];
      WithInitMembers(apps', y);
      assert apps == apps' + [apps[|apps| - 1]];
    }
  }

  /** Every application of `apps` comes after the applications it
      requires, unless those were installed beforehand (in `S`). */
  ghost predicate DependencyOrdered(apps: seq<App>, S: set<App>)
    reads Elems(apps)`requiredApps
  {
    forall p, y :: 0 <= p < |apps| && y in apps[p].requiredApps.Values ==> y in S || y in apps[..p]
  }

  /** The applications an install run marks Done, in the order it marks
      them (the order the after hook appends them to the installed list),
      come after the applications they require, and none comes twice. */
  lemma InstalledInDependencyOrder(D: seq<Event<App>>, S: set<App>)
    requires DepOrdered(D, S) && Once(D) && Tied(D)
    ensures DependencyOrdered(DoneApps(D), S) && Distinct(DoneApps(D))
  {
    var R := map x | x in Moved(D) :: x.requiredApps.Values;
    forall i | 0 <= i < |D| && D[i].Done? ensures D[i].app in R && R[D[i].app] == Deps(D[i]) {
      assert D[i].app in Moved(D) && TiedEvent(D[i]);
    }
    DoneOrdered(D, S, R);
    DoneOnce(D);
    var L := DoneApps(D);
    forall p, y | 0 <= p < |L| && y in L[p].requiredApps.Values ensures y in S || y in L[..p] {
      assert L[p] in R;
    }
  }

  /** Appending a list in dependency order to the installed list: every
      application appended comes after every application it requires,
      unless that one was installed beforehand (in `S`). */
  lemma {:induction false} AppendedInDependencyOrder(i0: seq<App>, L: seq<App>, S: set<App>)
    requires DependencyOrdered(L, S)
    ensures forall i, y :: |i0| <= i < |i0 + L| && y in (i0 + L)[i].requiredApps.Values ==>
      y in S || y in (i0 + L)[..i]
  {
    forall i, y | |i0| <= i < |i0 + L| && y in (i0 + L)[i].requiredApps.Values
      ensures y in S || y in (i0 + L)[..i]
    {
      var p := i - |i0|;
      assert (i0 + L)[i] == L[p];
      if y !in S {
        assert y in L[..p];
        assert (i0 + L)[..i] == i0 + L[..p];
      }
    }
  }

  /** The init functions of the applications of `apps` run in dependency
      order: when that of apps[p] runs, the init functions that ran before
      it (those of the applications of apps[..p] that have one) include
      that of every application it requires that has one, unless that one
      was installed beforehand (in `S`). */
  ghost predicate InitsInOrder(apps: seq<App>, S: set<App>)
    reads Elems(apps)`requiredApps, Elems(apps)`initFunc
  {
    forall p, y ::
      0 <= p < |apps| && apps[p].initFunc.Some? && y in apps[p].requiredApps.Values && y in apps && y.initFunc.Some?
      ==> y in S || y in WithInit(apps[..p])
  }

  /** Installing in dependency order initialises in dependency order. */
  lemma InitializedInDependencyOrder(apps: seq<App>, S: set<App>)
    requires DependencyOrdered(apps, S)
    ensures InitsInOrder(apps, S)
  {
    forall p, y | 0 <= p < |apps| && apps[p].initFunc.Some? && y in apps[p].requiredApps.Values &&
                  y in apps && y.initFunc.Some?
      ensures y in S || y in WithInit(apps[..p])
    {
      if y !in S {
        assert y in apps[..p];
        WithInitMembers(apps[..p], y);
      }
    }
  }

  /** The views `V` of applications of `U` hold the states the run `D` left
      them in, from the installed, pending and Uninstalled applications I0,
      P0 and N0. */
  ghost predicate RunViews(V: map<App, View>, U: set<App>, I0: set<App>, P0: set<App>, N0: set<App>,
                           D: seq<Event<App>>)
  {
    V.Keys <= U && forall x :: x in V ==> V[x].state == StateAfter(StateIn(x, I0, P0, N0), x, D)
  }

  /** The hooks a tied run appends are those of the init functions of the
      applications it marks Done, in that order, then those of a last init
      call not yet marked Done. */
  lemma HooksAppended(h0: seq<Hook>, hs: seq<Hook>, i0: seq<App>, ins: seq<App>, D: seq<Event<App>>)
    requires hs == h0 + InitHooks(D) && ins == i0 + DoneApps(D) && Tied(D) && Paired(D)
    ensures ins[|i0|..] == DoneApps(D)
    ensures hs == h0 + InitHooksOf(ins[|i0|..]) + LastInitHooks(D)
    ensures !EndsInit(D) ==> LastInitHooks(D) == [] && InitApps(D) == WithInit(ins[|i0|..])
  {
    assert ins[|i0|..] == DoneApps(D);
    TiedLists(D);
    PairedLists(D);
    ConcatAssoc(h0, DoneHooks(D), LastInitHooks(D));
    if !EndsInit(D) {
      assert DoneInits(D) + [] == DoneInits(D);
    }
  }

  /** The applications a paired, tied run moved are those it marked Done
      and the one whose init call ends it, if any. */
  lemma MovedApps(D: seq<Event<App>>)
    requires Tied(D) && Paired(D)
    ensures Moved(D) == Elems(DoneApps(D)) + (if EndsInit(D) then {D[|D| - 1].app} else {})
  {
    var last := if EndsInit(D) then {D[|D| - 1].app} else {};
    PairedLists(D);
    TiedLists(D);
    forall x | x in Moved(D) ensures x in Elems(DoneApps(D)) + last {
      var i :| 0 <= i < |D| && (D[i].Init? || D[i].Done?) && D[i].app == x;
      Listed(D, i);
      if D[i].Init? && x !in DoneApps(D) {
        assert x in DoneInits(D) + (if EndsInit(D) then [D[|D| - 1].app] else []);
        WithInitMembers(DoneApps(D), x);
      }
    }
    forall x | x in Elems(DoneApps(D)) ensures x in Moved(D) {
      var i := DoneEvent(D, x);
    }
    if EndsInit(D) {
      assert D[|D| - 1].app in Moved(D);
    }
  }

  /** After a run, each application of `U` is in the state the run leaves
      it in from its state before. */
  lemma StatesAfter(U: set<App>, I0: set<App>, P0: set<App>, N0: set<App>, D: seq<Event<App>>)
    requires Run(I0, P0, N0, InstalledIn(U), PendingIn(U), UninstalledIn(U), D)
    ensures forall x :: x in U ==> x.state == StateAfter(StateIn(x, I0, P0, N0), x, D)
  {
    StatesIn(U);
    forall x | x in U ensures x.state == StateAfter(StateIn(x, I0, P0, N0), x, D) {
      RunStates(I0, P0, N0, InstalledIn(U), PendingIn(U), UninstalledIn(U), D, x);
    }
  }

  /** The views of applications of `U`, taken after the run `D`, hold
      the states the run left them in. */
  lemma ViewsAfterRun(apps: seq<App>, U: set<App>, I0: set<App>, P0: set<App>, N0: set<App>, D: seq<Event<App>>)
    requires Elems(apps) <= U
    requires Run(I0, P0, N0, InstalledIn(U), PendingIn(U), UninstalledIn(U), D)
    ensures RunViews(Views(apps), U, I0, P0, N0, D)
  {
    StatesIn(U);
    forall x | x in Views(apps) ensures Views(apps)[x].state == StateAfter(StateIn(x, I0, P0, N0), x, D) {
      RunStates(I0, P0, N0, InstalledIn(U), PendingIn(U), UninstalledIn(U), D, x);
    }
  }

  /** In a list in dependency order without repeats, an application that
      another one requires, and that was not installed beforehand, comes
      first. */
  lemma RequiredComesFirst(apps: seq<App>, S: set<App>, p: nat, q: nat)
    requires DependencyOrdered(apps, S) && Distinct(apps)
    requires p < |apps| && q < |apps| && apps[q] in apps[p].requiredApps.Values && apps[q] !in S
    ensures q < p
  {
    assert apps[q] in apps[..p];
    var k :| 0 <= k < p && apps[..p][k] == apps[q];
    assert apps[k] == apps[q];
  }

  /** Hence no two applications of such a list require each other, and
      none requires itself: an install run that marks Done an application
      of a requirement cycle has failed to, unless the cycle was broken by
      applications installed beforehand. */
  lemma NoMutualRequirement(apps: seq<App>, S: set<App>, p: nat, q: nat)
    requires DependencyOrdered(apps, S) && Distinct(apps)
    requires p < |apps| && q < |apps| && apps[p] !in S && apps[q] !in S
    ensures !(apps[q] in apps[p].requiredApps.Values && apps[p] in apps[q].requiredApps.Values)
  {
    if apps[q] in apps[p].requiredApps.Values && apps[p] in apps[q].requiredApps.Values {
      RequiredComesFirst(apps, S, p, q);
      RequiredComesFirst(apps, S, q, p);
    }
  }

  /** In a tied run, each application marked Done has resolved every name
      it requires, to the application its registry has under that name. */
  lemma RequiredRegistered(U: set<App>, D: seq<Event<App>>)
    requires Closed(U) && Tied(D) && Moved(D) <= U
    ensures forall x, n :: x in DoneApps(D) && n in x.requiredNames ==>
      x.registry != null && n in x.registry.registered && n in x.requiredApps &&
      x.requiredApps[n] == x.registry.registered[n]
  {
    forall x, n | x in DoneApps(D) && n in x.requiredNames
      ensures x.registry != null && n in x.registry.registered && n in x.requiredApps &&
              x.requiredApps[n] == x.registry.registered[n]
    {
      var i := DoneEvent(D, x);
      assert TiedEvent(D[i]);
      assert x in Moved(D) && Member(U, x);
    }
  }

  /** Appended to the installed list in dependency order, the applications
      a tied run marks Done each come after the applications registered
      under the names they require, unless those were installed beforehand
      (in `S`). */
  lemma RegisteredFirst(U: set<App>, i0: seq<App>, ins: seq<App>, D: seq<Event<App>>, S: set<App>)
    requires Closed(U) && Tied(D) && Moved(D) <= U && ins == i0 + DoneApps(D)
    requires DependencyOrdered(DoneApps(D), S)
    ensures forall i, n :: |i0| <= i < |ins| && n in ins[i].requiredNames ==>
      ins[i].registry != null && n in ins[i].registry.registered && n in ins[i].requiredApps &&
      ins[i].requiredApps[n] == ins[i].registry.registered[n] &&
      (ins[i].registry.registered[n] in S || ins[i].registry.registered[n] in ins[..i])
  {
    RequiredRegistered(U, D);
    AppendedInDependencyOrder(i0, DoneApps(D), S);
    forall i, n | |i0| <= i < |ins| && n in ins[i].requiredNames
      ensures ins[i].registry != null && n in ins[i].registry.registered && n in ins[i].requiredApps &&
              ins[i].requiredApps[n] == ins[i].registry.registered[n] &&
              (ins[i].registry.registered[n] in S || ins[i].registry.registered[n] in ins[..i])
    {
      assert ins[i] == DoneApps(D)[i - |i0|];
      assert ins[i].requiredApps[n] in ins[i].requiredApps.Values;
    }
  }

  /** The applications a run marks Done are exactly those of `U` that
      were Fresh or Uninstalled before it and are Installed after it. */
  lemma NewlyInstalled(U: set<App>, I0: set<App>, P0: set<App>, N0: set<App>, D: seq<Event<App>>)
    requires Run(I0, P0, N0, InstalledIn(U), PendingIn(U), UninstalledIn(U), D)
    ensures forall x :: x in U ==> (x in DoneApps(D) <==> x in P0 && x.state == Installed)
  {
    forall x | x in U ensures x in DoneApps(D) <==> x in P0 && x.state == Installed {
      if x in DoneApps(D) {
        assert x in Elems(DoneApps(D)) && x in InstalledIn(U);
      }
      if x in P0 && x.state == Installed {
        assert x in InstalledIn(U) && x !in I0;
      }
    }
  }

  /** After a successful run in dependency order, the applications
      registered under the names required by the applications it marked
      Done are installed. */
  lemma RegisteredInstalled(U: set<App>, I0: set<App>, P0: set<App>, N0: set<App>, D: seq<Event<App>>)
    requires Closed(U) && Tied(D) && Moved(D) <= U && DependencyOrdered(DoneApps(D), I0)
    requires Run(I0, P0, N0, InstalledIn(U), PendingIn(U), UninstalledIn(U), D)
    ensures forall x, n :: x in DoneApps(D) && n in x.requiredNames ==>
      x.registry != null && n in x.registry.registered && x.registry.registered[n].state == Installed
  {
    RequiredRegistered(U, D);
    var L := DoneApps(D);
    forall x, n | x in L && n in x.requiredNames
      ensures x.registry != null && n in x.registry.registered && x.registry.registered[n].state == Installed
    {
      var p :| 0 <= p < |L| && L[p] == x;
      var y := x.requiredApps[n];
      assert y in L[p].requiredApps.Values;
      assert y in I0 || y in L[..p];
      assert y in InstalledIn(U);
    }
  }

  /** The rollback of a failed install: uninstalls what `global` has
      installed, then builds the error naming the application and the
      cause. */
  method RollBack(global: Registry, name: string, cause: Error) returns (err: Option<Error>)
    requires global.options.errorHandler.Some?
    modifies Elems(global.installed)`state, global.trace
    ensures err == Some(InstallFailed(name, cause))
    ensures global.RolledBackFrom(old(Views(global.installed)), old(global.trace.events))
  {
    global.Uninstall();
    PassLeavesUninstalled(global.installed, old(Views(global.installed)));
    err := Some(InstallFailed(name, cause));
  }

  /** The failure an install by name reports after its rollback, as the
      names loop of Install builds it: from the name of the application
      that getApp returned. Reading the name of a nil application is a
      run-time panic, written here as None. */
  function FailureAsWritten(app: App?, cause: Error): (r: Option<Error>)
    ensures r.None? <==> app == null
    ensures app != null ==> r == Some(InstallFailed(app.name, cause))
  {
    if app == null then None else Some(InstallFailed(app.name, cause))
  }

  /** What an init function does to the lifecycle it is given: it appends
      its hooks one by one. */
  method AppendHooks(lc: Lifecycle, hs: seq<Hook>)
    modifies lc
    ensures lc.hooks == old(lc.hooks) + hs
    ensures lc.numStarted == old(lc.numStarted) && lc.calls == old(lc.calls)
  {
    for i := 0 to |hs|
      invariant lc.hooks == old(lc.hooks) + hs[..i]
      invariant lc.numStarted == old(lc.numStarted) && lc.calls == old(lc.calls)
    {
      assert hs[..i + 1] == hs[..i] + [hs[i]];
      lc.Append(hs[i]);
    }
    assert hs[..|hs|] == hs;
  }

  class App {
    const name: string
    var value: Value
    var requiredNames: set<string>
    var requiredApps: map<string, App>
    /** The registry whose lookup is the getAppFunc; null stands for the
        default lookup, which reports every name as not registered. */
    var registry: Registry?
    var initFunc: Option<InitFunc>
    var cleanFunc: Option<Callback>
    var middlewares: seq<Middleware>
    var state: State

    /** `New(name)`: no requirements, the default lookup, never installed. */
    constructor (name: string)
      ensures this.name == name && value == NilValue
      ensures requiredNames == {} && requiredApps == map[] && registry == null
      ensures initFunc == None && cleanFunc == None && middlewares == [] && state == Fresh
    {
      this.name := name;
      value, requiredNames, requiredApps, registry := NilValue, {}, map[], null;
      initFunc, cleanFunc, middlewares, state := None, None, [], Fresh;
    }

    /** The fields an install sets. */
    ghost function Current(): Fields
      reads this`requiredApps, this`middlewares, this`value, this`cleanFunc
    {
      Fields(requiredApps, middlewares, value, cleanFunc)
    }

    /** The resolved required applications all carry required names. */
    ghost predicate Wf()
      reads this`requiredNames, this`requiredApps
    {
      requiredApps.Keys <= requiredNames
    }

    /** Every resolved required application is installed. */
    ghost predicate RequiredInstalled()
      reads this`requiredApps, requiredApps.Values`state
    {
      forall y :: y in requiredApps.Values ==> y.state == Installed
    }

    ghost function Viewed(): View
      reads this
    {
      UninstallOrder.View(state, cleanFunc)
    }

    /** Adds every name of `names` to the required names, as a set: a name
        given twice, or already required, is required once. */
    method Require(names: seq<string>)
      modifies this`requiredNames
      ensures requiredNames == old(requiredNames) + (set n | n in names)
      ensures (forall n :: n in names ==> n in old(requiredNames)) ==> requiredNames == old(requiredNames)
    {
      var i := 0;
      while i < |names|
        invariant 0 <= i <= |names|
        invariant requiredNames == old(requiredNames) + (set n | n in names[..i])
      {
        assert names[..i + 1] == names[..i] + [names[i]];
        requiredNames := requiredNames + {names[i]};
        i := i + 1;
      }
      assert names[..i] == names;
    }

    /** Sets the init function. */
    method Init2(f: InitFunc)
      modifies this`initFunc
      ensures initFunc == Some(f)
    {
      initFunc := Some(f);
    }

    /** The getAppFunc lookup of `n`. */
    function Lookup(n: string): (r: (App?, Option<Error>))
      reads this, registry
      ensures r.1.None? <==> Resolves(n)
      ensures r.1.None? ==> r.0 == registry.registered[n]
      ensures r.1.Some? ==> r.0 == null && r.1 == Some(NotRegistered(n))
    {
      if registry == null then (null, Some(NotRegistered(n))) else registry.GetApp(n)
    }

    ghost predicate Resolves(n: string)
      reads this, registry
    {
      registry != null && n in registry.registered
    }

    /** The registry the lookup consults, if any. */
    ghost function Home(): set<Registry>
      reads this`registry
    {
      if registry == null then {} else {registry}
    }

    /** Each resolved required application is the one the registry has
        under that name. */
    ghost predicate FromRegistry()
      reads this`requiredApps, this`registry, Home()`registered
    {
      forall n :: n in requiredApps ==>
        registry != null && n in registry.registered && requiredApps[n] == registry.registered[n]
    }

    /** Each resolved required application was resolved already in `ra`, or
        is the application the registry has under that name. */
    ghost predicate ResolvedFrom(ra: map<string, App>)
      reads this`requiredApps, this`registry, Home()`registered
    {
      forall n :: n in requiredApps ==>
        (n in ra && requiredApps[n] == ra[n]) ||
        (registry != null && n in registry.registered && requiredApps[n] == registry.registered[n])
    }

    /** Resolutions from `ra`, whose applications the registry has under
        the same names, are resolutions from the registry. */
    lemma ResolvedRegistered(ra: map<string, App>)
      requires ResolvedFrom(ra)
      requires forall n :: n in ra ==> registry != null && n in registry.registered && ra[n] == registry.registered[n]
      ensures FromRegistry()
      ensures requiredApps.Values <= ra.Values + (if registry != null then registry.registered.Values else {})
    {
      forall y | y in requiredApps.Values
        ensures y in ra.Values + (if registry != null then registry.registered.Values else {})
      {
        var n :| n in requiredApps && requiredApps[n] == y;
        if n in ra && requiredApps[n] == ra[n] {
          assert ra[n] in ra.Values;
        } else {
          assert registry.registered[n] in registry.registered.Values;
        }
      }
    }

    /** Resolves every required name through the lookup, unless as many
        applications as names are resolved already; the first name that does
        not resolve (in an arbitrary order) ends it with the lookup's error.
        Names resolved before the error stay resolved. */
    method PrepareRequiredApps() returns (err: Option<Error>)
      requires Wf()
      modifies this`requiredApps
      ensures Wf()
      ensures |requiredNames| == |old(requiredApps)| ==> err.None? && requiredApps == old(requiredApps)
      ensures err.None? <==> |requiredNames| == |old(requiredApps)| || forall n :: n in requiredNames ==> Resolves(n)
      ensures err.None? ==> requiredApps.Keys == requiredNames
      ensures err.Some? ==> exists n :: n in requiredNames && !Resolves(n) && err == Some(NotRegistered(n))
      ensures forall n :: n in requiredApps ==>
        (n in old(requiredApps) && requiredApps[n] == old(requiredApps)[n]) ||
        (Resolves(n) && requiredApps[n] == registry.registered[n])
    {
      if |requiredNames| == |requiredApps| {
        SubsetSameCard(requiredApps.Keys, requiredNames);
        return None;
      }
      var todo := requiredNames;
      while todo != {}
        invariant todo <= requiredNames && Wf()
        invariant forall n :: n in requiredNames - todo ==> n in requiredApps && Resolves(n)
        invariant forall n :: n in requiredApps ==>
          (n in old(requiredApps) && requiredApps[n] == old(requiredApps)[n]) ||
          (Resolves(n) && requiredApps[n] == registry.registered[n])
        decreases |todo|
      {
        var n :| n in todo;
        var (app, e) := Lookup(n);
        if e.Some? {
          return e;
        }
        requiredApps := requiredApps[n := app];
        todo := todo - {n};
      }
      assert requiredApps.Keys == requiredNames;
      err := None;
    }

    /** Installs the required applications (in an arbitrary order), then
        the application itself: the before hook, the init function, the
        after hook, Installed. An application met while Installing is a
        dependency cycle. `r` is the registry whose hooks are passed (null:
        no hooks) and `U` the applications the run can reach; `D` is what
        the run does, in order. Applications that were not Fresh or
        Uninstalled are left untouched. */
    method Install(lc: Lifecycle, r: Registry?, ghost U: set<App>, ghost D0: seq<Event<App>>, ghost S: map<App, Fields>)
      returns (err: Option<Error>, ghost D: seq<Event<App>>)
      requires this in U && Closed(U) && Tied(D0) && Moved(D0) <= U - PendingIn(U)
      requires Shaped(U, S, D0, Prefix(r))
      modifies PendingIn(U)`state, PendingIn(U)`requiredApps, PendingIn(U)`value, PendingIn(U)`cleanFunc,
               PendingIn(U)`middlewares, lc, HooksOf(r)`installed
      ensures Closed(U)
      ensures Run(old(InstalledIn(U)), old(PendingIn(U)), old(UninstalledIn(U)),
                  InstalledIn(U), PendingIn(U), UninstalledIn(U), D)
      ensures Logs(lc.hooks, InstalledOf(r), old(lc.hooks), old(InstalledOf(r)), D, r != null) && Tied(D0 + D)
      ensures Shaped(U, S, D0 + D, Prefix(r))
      ensures lc.numStarted == old(lc.numStarted) && lc.calls == old(lc.calls)
      ensures err.Some? ==> FromRun(err.value, D)
      ensures err.None? <==> state == Installed
      ensures err.None? ==> Complete(D)
      ensures old(state) == Installed ==> err == None && D == []
      ensures old(state) == Installing ==> err == Some(CircularDependency(name)) && D == []
      ensures !old(state).Pending() ==> unchanged(U) && unchanged(lc) && unchanged(HooksOf(r))
      ensures ResolvedFrom(old(requiredApps))
      ensures old(state).Pending() ==> D != [] && D[0] == Begun(this)
      ensures old(state).Pending() && err.Some? ==> state == Installing
      ensures old(state).Pending() && err.None? ==>
        D[|D| - 1] == Done(this, requiredApps, initFunc) &&
        requiredApps.Keys == requiredNames && RequiredInstalled() &&
        middlewares == (if r != null then r.middlewares + old(middlewares) else old(middlewares)) &&
        (initFunc.Some? ==> value == initFunc.value.value && cleanFunc == initFunc.value.clean) &&
        (initFunc.None? ==> value == old(value) && cleanFunc == old(cleanFunc))
      decreases |PendingIn(U)|, 4
    {
      if state == Installed {
        RunFrom(U);
        assert D0 + [] == D0;
        return None, [];
      }
      if state == Installing {
        RunFrom(U);
        assert D0 + [] == D0;
        return Some(CircularDependency(name)), [];
      }
      err, D := InstallFresh(lc, r, U, D0, S);
    }

    /** Install past its two guards: marks the application installing and
        resolves its required applications. */
    method InstallFresh(lc: Lifecycle, r: Registry?, ghost U: set<App>, ghost D0: seq<Event<App>>, ghost S: map<App, Fields>)
      returns (err: Option<Error>, ghost D: seq<Event<App>>)
      requires this in U && Closed(U) && state.Pending() && Tied(D0) && Moved(D0) <= U - PendingIn(U)
      requires Shaped(U, S, D0, Prefix(r))
      modifies PendingIn(U)`state, PendingIn(U)`requiredApps, PendingIn(U)`value, PendingIn(U)`cleanFunc,
               PendingIn(U)`middlewares, lc, HooksOf(r)`installed
      ensures Closed(U)
      ensures Run(old(InstalledIn(U)), old(PendingIn(U)), old(UninstalledIn(U)),
                  InstalledIn(U), PendingIn(U), UninstalledIn(U), D)
      ensures Logs(lc.hooks, InstalledOf(r), old(lc.hooks), old(InstalledOf(r)), D, r != null) && Tied(D0 + D)
      ensures Shaped(U, S, D0 + D, Prefix(r))
      ensures lc.numStarted == old(lc.numStarted) && lc.calls == old(lc.calls)
      ensures err.Some? ==> FromRun(err.value, D)
      ensures (err.None? <==> state == Installed) && (err.Some? ==> state == Installing)
      ensures D != [] && D[0] == Begun(this)
      ensures ResolvedFrom(old(requiredApps))
      ensures err.None? ==>
        Complete(D) && D[|D| - 1] == Done(this, requiredApps, initFunc) &&
        requiredApps.Keys == requiredNames && RequiredInstalled() &&
        middlewares == (if r != null then r.middlewares + old(middlewares) else old(middlewares)) &&
        (initFunc.Some? ==> value == initFunc.value.value && cleanFunc == initFunc.value.clean) &&
        (initFunc.None? ==> value == old(value) && cleanFunc == old(cleanFunc))
      decreases |PendingIn(U)|, 3
    {
      ghost var I0, P0, N0 := InstalledIn(U), PendingIn(U), UninstalledIn(U);
      assert Member(U, this);
      StatesIn(U);
      ghost var B := [Begun(this)];
      err := Begin(U, D0, S, Prefix(r));
      TiedBegun(D0, this);
      BegunLists(this, []);
      assert B + [] == B;
      if err.Some? {
        RunBegin(I0, P0, N0, this);
        return err, B;
      }
      ghost var Dr, R;
      err, Dr, R := InstallRest(lc, r, U, I0, P0, N0, old(lc.hooks), old(InstalledOf(r)), old(middlewares),
                                old(value), old(cleanFunc), D0 + B, S);
      D := B + Dr;
      BegunRun(D0, this, Dr, lc.hooks, InstalledOf(r), old(lc.hooks), old(InstalledOf(r)), r != null);
      if err.Some? {
        FromRunConcat(err.value, B, Dr);
      }
    }

    /** The first steps past the guards: the application is marked
        installing, then its required applications are resolved. */
    method Begin(ghost U: set<App>, ghost D0: seq<Event<App>>, ghost S: map<App, Fields>, ghost pre: seq<Middleware>)
      returns (err: Option<Error>)
      requires this in U && Closed(U) && state.Pending() && Tied(D0) && Moved(D0) <= U - PendingIn(U)
      requires Shaped(U, S, D0, pre)
      modifies this`state, this`requiredApps
      ensures Closed(U) && state == Installing && Tied(D0) && Shaped(U, S, D0 + [Begun(this)], pre)
      ensures InstalledIn(U) == old(InstalledIn(U)) && PendingIn(U) == old(PendingIn(U)) - {this}
      ensures UninstalledIn(U) == old(UninstalledIn(U)) - {this}
      ensures err.None? ==> requiredApps.Keys == requiredNames
      ensures err.Some? ==> err.value.NotRegistered?
      ensures ResolvedFrom(old(requiredApps))
    {
      assert Member(U, this);
      MarkInstalling(U);
      ghost var I1, P1, N1, ra := InstalledIn(U), PendingIn(U), UninstalledIn(U), requiredApps;
      assert forall n :: n in ra ==> registry != null && n in registry.registered && ra[n] == registry.registered[n];
      assert ra.Values <= U && (registry != null ==> registry.registered.Values <= U);
      assert this !in Moved(D0);
      err := PrepareRequiredApps();
      ghost var D := D0 + [Begun(this)];
      assert D[..|D| - 1] == D0;
      TiedBegun(D0, this);
      assert BegunApps(D) == BegunApps(D0) + [this];
      assert old(FieldsAfter(this, S[this], D0, pre));
      ShapedStep(Step(U, S, D0, [Begun(this)], pre, this));
      ResolvedRegistered(ra);
      ClosedResolved(Resolution(U, this));
      assert InstalledIn(U) == I1 && PendingIn(U) == P1 && UninstalledIn(U) == N1;
      TiedKept(D0);
    }

    /** The state Installing, which a later Install of the application
        reports as a dependency cycle. */
    method MarkInstalling(ghost U: set<App>)
      requires this in U && state.Pending()
      modifies this`state
      ensures state == Installing
      ensures InstalledIn(U) == old(InstalledIn(U)) && PendingIn(U) == old(PendingIn(U)) - {this}
      ensures UninstalledIn(U) == old(UninstalledIn(U)) - {this}
    {
      ghost var I0, P0, N0 := InstalledIn(U), PendingIn(U), UninstalledIn(U);
      state := Installing;
      assert InstalledIn(U) == I0 && PendingIn(U) == P0 - {this} && UninstalledIn(U) == N0 - {this};
    }

    /** Install once the application is marked installing and its required
        applications are resolved: `R` is the run of the required
        applications, `D` the run of the rest, after the Begun mark. */
    method InstallRest(lc: Lifecycle, r: Registry?, ghost U: set<App>, ghost I0: set<App>, ghost P0: set<App>,
                       ghost N0: set<App>, ghost h0: seq<Hook>, ghost i0: seq<App>, ghost mw0: seq<Middleware>,
                       ghost v0: Value, ghost cf0: Option<Callback>, ghost D0: seq<Event<App>>, ghost S: map<App, Fields>)
      returns (err: Option<Error>, ghost D: seq<Event<App>>, ghost R: seq<Event<App>>)
      requires this in U && Closed(U) && state == Installing && requiredApps.Keys == requiredNames
      requires Tied(D0) && Moved(D0) <= U - P0 && Shaped(U, S, D0, Prefix(r))
      requires this in P0 && I0 !! P0 && N0 <= P0
      requires InstalledIn(U) == I0 && PendingIn(U) == P0 - {this} && UninstalledIn(U) == N0 - {this}
      requires lc.hooks == h0 && InstalledOf(r) == i0 && middlewares == mw0 && value == v0 && cleanFunc == cf0
      modifies P0`state, P0`requiredApps, P0`value, P0`cleanFunc, P0`middlewares, lc, HooksOf(r)`installed
      ensures Closed(U)
      ensures Run(I0, P0, N0, InstalledIn(U), PendingIn(U), UninstalledIn(U), [Begun(this)] + D)
      ensures Logs(lc.hooks, InstalledOf(r), h0, i0, D, r != null) && Tied(D0 + D)
      ensures Shaped(U, S, D0 + D, Prefix(r))
      ensures lc.numStarted == old(lc.numStarted) && lc.calls == old(lc.calls)
      ensures err.Some? ==> FromRun(err.value, D)
      ensures (err.None? <==> state == Installed) && (err.Some? ==> state == Installing)
      ensures requiredApps == old(requiredApps)
      ensures err.None? ==> Complete([Begun(this)] + D) && Complete(R) &&
                            D == R + FinishEvents(this, requiredApps, initFunc, true)
      ensures err.Some? ==> D == R || (Complete(R) && D == R + FinishEvents(this, requiredApps, initFunc, false))
      ensures err.None? ==>
        RequiredInstalled() &&
        middlewares == (if r != null then r.middlewares + mw0 else mw0) &&
        (initFunc.Some? ==> value == initFunc.value.value && cleanFunc == initFunc.value.clean) &&
        (initFunc.None? ==> value == v0 && cleanFunc == cf0)
      decreases |P0|, 2
    {
      assert Member(U, this);
      ghost var ra := requiredApps;
      err, R := InstallRequired(lc, r, U, |P0|, D0, S);
      assert requiredApps == ra;
      ghost var I1, P1, N1 := InstalledIn(U), PendingIn(U), UninstalledIn(U);
      if err.Some? {
        RunBegun(I0, P0, N0, I1, P1, N1, R, this);
        return err, R, R;
      }
      assert forall y :: y in requiredApps.Values ==> y in I1;
      MovedBelow(U, D0, I0, P0, N0, I1, P1, N1, R, this);
      err, D := InstallTail(lc, r, U, I0, P0, N0, D0, R, h0, i0, S);
    }

    /** The rest of Install once the required applications are installed,
        continuing the complete run `D1` of the required applications from
        the installed, pending and Uninstalled applications `I0`, `P0` and
        `N0` (without this application) and from the hooks `h0` and
        installed list `i0`: `D` is `D1` followed by this application's
        init call and Done mark. */
    method InstallTail(lc: Lifecycle, r: Registry?, ghost U: set<App>, ghost I0: set<App>, ghost P0: set<App>,
                       ghost N0: set<App>, ghost D0: seq<Event<App>>, ghost D1: seq<Event<App>>,
                       ghost h0: seq<Hook>, ghost i0: seq<App>, ghost S: map<App, Fields>)
      returns (err: Option<Error>, ghost D: seq<Event<App>>)
      requires this in U && Closed(U) && state == Installing
      requires Shaped(U, S, D0 + D1, Prefix(r)) && this !in Moved(D0 + D1)
      requires this in P0 && I0 !! P0 && N0 <= P0
      requires Run(I0, P0 - {this}, N0 - {this}, InstalledIn(U), PendingIn(U), UninstalledIn(U), D1) && Complete(D1)
      requires requiredApps.Values <= InstalledIn(U)
      requires Logs(lc.hooks, InstalledOf(r), h0, i0, D1, r != null) && Tied(D0 + D1) && Moved(D0 + D1) <= U
      requires requiredApps.Keys == requiredNames
      modifies this`middlewares, this`value, this`cleanFunc, this`state, lc, HooksOf(r)`installed
      ensures Closed(U)
      ensures Run(I0, P0, N0, InstalledIn(U), PendingIn(U), UninstalledIn(U), [Begun(this)] + D)
      ensures D == D1 + FinishEvents(this, requiredApps, initFunc, state == Installed)
      ensures state == Installed ==> Complete([Begun(this)] + D)
      ensures Logs(lc.hooks, InstalledOf(r), h0, i0, D, r != null) && Tied(D0 + D)
      ensures Shaped(U, S, D0 + D, Prefix(r))
      ensures lc.numStarted == old(lc.numStarted) && lc.calls == old(lc.calls)
      ensures err.Some? ==> FromRun(err.value, D)
      ensures err == (if initFunc.Some? then initFunc.value.result else None)
      ensures (err.None? <==> state == Installed) && (err.Some? ==> state == Installing)
      ensures err.None? ==>
        RequiredInstalled() &&
        middlewares == (if r != null then r.middlewares + old(middlewares) else old(middlewares)) &&
        (initFunc.Some? ==> value == initFunc.value.value && cleanFunc == initFunc.value.clean) &&
        (initFunc.None? ==> value == old(value) && cleanFunc == old(cleanFunc))
    {
      ghost var I1, P1, N1, h1, i1 := InstalledIn(U), PendingIn(U), UninstalledIn(U), lc.hooks, InstalledOf(r);
      assert this !in requiredApps.Values;
      ghost var E;
      err, E := InstallSelf(lc, r, U, D0 + D1, S);
      TailRun(I0, P0, N0, I1, P1, N1, D1, this, requiredApps, initFunc, state == Installed, err,
              h0, i0, h1, i1, lc.hooks, InstalledOf(r), r != null);
      assert InstalledIn(U) == I1 + (if state == Installed then {this} else {});
      D := D1 + E;
      ConcatAssoc(D0, D1, E);
    }

    /** The loop of Install over the resolved required applications. */
    method InstallRequired(lc: Lifecycle, r: Registry?, ghost U: set<App>, ghost bound: nat,
                           ghost D0: seq<Event<App>>, ghost S: map<App, Fields>)
      returns (err: Option<Error>, ghost D: seq<Event<App>>)
      requires this in U && Closed(U) && state == Installing && requiredApps.Keys == requiredNames
      requires Tied(D0) && Moved(D0) <= U - PendingIn(U) && Shaped(U, S, D0, Prefix(r))
      requires |PendingIn(U)| < bound
      modifies PendingIn(U)`state, PendingIn(U)`requiredApps, PendingIn(U)`value, PendingIn(U)`cleanFunc,
               PendingIn(U)`middlewares, lc, HooksOf(r)`installed
      ensures Closed(U)
      ensures Run(old(InstalledIn(U)), old(PendingIn(U)), old(UninstalledIn(U)),
                  InstalledIn(U), PendingIn(U), UninstalledIn(U), D)
      ensures Logs(lc.hooks, InstalledOf(r), old(lc.hooks), old(InstalledOf(r)), D, r != null) && Tied(D0 + D)
      ensures Shaped(U, S, D0 + D, Prefix(r))
      ensures lc.numStarted == old(lc.numStarted) && lc.calls == old(lc.calls)
      ensures err.Some? ==> FromRun(err.value, D)
      ensures err.None? ==> Complete(D)
      ensures state == Installing && requiredApps == old(requiredApps)
      ensures err.None? ==> RequiredInstalled()
      decreases bound, 1
    {
      var deps := requiredApps;
      var todo := deps.Keys;
      ghost var I0, P0, N0 := InstalledIn(U), PendingIn(U), UninstalledIn(U);
      RunFrom(U);
      assert Member(U, this);
      assert P0 <= U && Moved(D0) <= U - P0 && |P0| < bound;
      D := [];
      assert D0 + D == D0;
      LogsRefl(lc.hooks, InstalledOf(r), r != null);
      while todo != {}
        invariant todo <= deps.Keys
        invariant Closed(U) && requiredApps == deps && state == Installing
        invariant Run(I0, P0, N0, InstalledIn(U), PendingIn(U), UninstalledIn(U), D) && Complete(D)
        invariant Logs(lc.hooks, InstalledOf(r), old(lc.hooks), old(InstalledOf(r)), D, r != null) && Tied(D0 + D)
        invariant Shaped(U, S, D0 + D, Prefix(r))
        invariant lc.numStarted == old(lc.numStarted) && lc.calls == old(lc.calls)
        invariant forall m :: m in deps.Keys - todo ==> deps[m] in InstalledIn(U)
        decreases |todo|
      {
        var n :| n in todo;
        var y := deps[n];
        assert y in deps.Values && Member(U, y);
        var e;
        ghost var Dn;
        ghost var Ib := InstalledIn(U);
        e, Dn := InstallOne(y, lc, r, U, bound, D0, I0, P0, N0, old(lc.hooks), old(InstalledOf(r)), D, S);
        if e.Some? {
          return e, D + Dn;
        }
        D := D + Dn;
        KeysDone(deps, todo, n, Ib, InstalledIn(U));
        RemoveCard(todo, n);
        todo := todo - {n};
      }
      err := None;
      ValuesInstalled(deps, U);
    }

    /** One round of InstallRequired: installs the required application
        `y`, continuing the run `D` of the loop, which began from the
        installed, pending and Uninstalled applications `I0`, `P0` and `N0`
        and from the hooks `h0` and installed list `i0`. */
    method InstallOne(y: App, lc: Lifecycle, r: Registry?, ghost U: set<App>, ghost bound: nat,
                      ghost D0: seq<Event<App>>, ghost I0: set<App>, ghost P0: set<App>, ghost N0: set<App>,
                      ghost h0: seq<Hook>, ghost i0: seq<App>, ghost D: seq<Event<App>>, ghost S: map<App, Fields>)
      returns (e: Option<Error>, ghost Dn: seq<Event<App>>)
      requires this in U && y in U && Closed(U) && state == Installing
      requires Tied(D0 + D) && Moved(D0) <= U - P0 && P0 <= U && |P0| < bound
      requires Shaped(U, S, D0 + D, Prefix(r))
      requires Run(I0, P0, N0, InstalledIn(U), PendingIn(U), UninstalledIn(U), D) && Complete(D)
      requires Logs(lc.hooks, InstalledOf(r), h0, i0, D, r != null)
      modifies PendingIn(U)`state, PendingIn(U)`requiredApps, PendingIn(U)`value, PendingIn(U)`cleanFunc,
               PendingIn(U)`middlewares, lc, HooksOf(r)`installed
      ensures Closed(U) && state == Installing && requiredApps == old(requiredApps)
      ensures Run(I0, P0, N0, InstalledIn(U), PendingIn(U), UninstalledIn(U), D + Dn)
      ensures Logs(lc.hooks, InstalledOf(r), h0, i0, D + Dn, r != null) && Tied(D0 + (D + Dn))
      ensures Shaped(U, S, D0 + (D + Dn), Prefix(r))
      ensures lc.numStarted == old(lc.numStarted) && lc.calls == old(lc.calls)
      ensures e.Some? ==> FromRun(e.value, D + Dn)
      ensures e.None? ==> Complete(D + Dn) && y in InstalledIn(U) && old(InstalledIn(U)) <= InstalledIn(U)
      decreases bound, 0
    {
      ghost var Ib, Pb, Nb, hb := InstalledIn(U), PendingIn(U), UninstalledIn(U), lc.hooks;
      ghost var ib := InstalledOf(r);
      SubsetCard(Pb, P0);
      assert this !in Pb;
      MovedOut(U, D0, I0, P0, N0, Ib, Pb, Nb, D);
      e, Dn := y.Install(lc, r, U, D0 + D, S);
      assert requiredApps == old(requiredApps) && state == Installing;
      ConcatAssoc(D0, D, Dn);
      RunStep(I0, P0, N0, Ib, Pb, Nb, InstalledIn(U), PendingIn(U), UninstalledIn(U), D, Dn,
              h0, i0, hb, ib, lc.hooks, InstalledOf(r), r != null, e);
    }

    /** The last part of Install, once the required applications are
        installed: the init step, then, unless it failed, the after hook
        and the state Installed. */
    method InstallSelf(lc: Lifecycle, r: Registry?, ghost U: set<App>, ghost D1: seq<Event<App>>, ghost S: map<App, Fields>)
      returns (err: Option<Error>, ghost E: seq<Event<App>>)
      requires this in U && Closed(U) && state == Installing && requiredApps.Keys == requiredNames
      requires Tied(D1) && Moved(D1) <= U && Shaped(U, S, D1, Prefix(r)) && this !in Moved(D1)
      modifies this`middlewares, this`value, this`cleanFunc, this`state, lc, HooksOf(r)`installed
      ensures Closed(U)
      ensures middlewares == if r != null then r.middlewares + old(middlewares) else old(middlewares)
      ensures state == Installed || state == Installing
      ensures initFunc.None? ==> state == Installed && value == old(value) && cleanFunc == old(cleanFunc)
      ensures initFunc.Some? ==> value == initFunc.value.value && cleanFunc == initFunc.value.clean
      ensures err.None? <==> state == Installed
      ensures err.Some? ==> initFunc.Some? && initFunc.value.result == err
      ensures err == (if initFunc.Some? then initFunc.value.result else None)
      ensures E == FinishEvents(this, requiredApps, initFunc, state == Installed) && Tied(D1 + E)
      ensures Shaped(U, S, D1 + E, Prefix(r))
      ensures lc.hooks == old(lc.hooks) + (if initFunc.Some? then initFunc.value.hooks else [])
      ensures r != null ==> r.installed == old(r.installed) + (if state == Installed then [this] else [])
      ensures lc.numStarted == old(lc.numStarted) && lc.calls == old(lc.calls)
      ensures InstalledIn(U) == old(InstalledIn(U)) + (if state == Installed then {this} else {})
      ensures PendingIn(U) == old(PendingIn(U)) && UninstalledIn(U) == old(UninstalledIn(U))
    {
      err, E := InitStep(lc, r, U, D1, S);
      ClosedKept(U);
      label Initialised:
      if err.None? {
        MarkInstalled(r, U);
        ClosedKept(U);
        E := E + [Done(this, requiredApps, initFunc)];
      }
      TiedKept(D1);
      TiedFinish(this, err.None?);
      assert E == FinishEvents(this, requiredApps, initFunc, err.None?);
      TiedConcat(D1, E);
      ShapedKept@Initialised(Shape(U, S, D1 + E, Prefix(r)));
    }

    /** The after hook, then the state Installed. */
    method MarkInstalled(r: Registry?, ghost U: set<App>)
      requires this in U && state == Installing
      modifies this`state, HooksOf(r)`installed
      ensures state == Installed
      ensures r != null ==> r.installed == old(r.installed) + [this]
      ensures InstalledIn(U) == old(InstalledIn(U)) + {this}
      ensures PendingIn(U) == old(PendingIn(U)) && UninstalledIn(U) == old(UninstalledIn(U))
    {
      if r != null {
        r.After(this);
      }
      ghost var I, P, N := InstalledIn(U), PendingIn(U), UninstalledIn(U);
      state := Installed;
      assert InstalledIn(U) == I + {this};
      assert PendingIn(U) == P;
      assert UninstalledIn(U) == N;
    }

    /** The before hook, then the init function: its value and clean-up
        are kept even when it fails. */
    method InitStep(lc: Lifecycle, r: Registry?, ghost U: set<App>, ghost D1: seq<Event<App>>, ghost S: map<App, Fields>)
      returns (err: Option<Error>, ghost E: seq<Event<App>>)
      requires this in U && Shaped(U, S, D1, Prefix(r)) && this !in Moved(D1)
      modifies this`middlewares, this`value, this`cleanFunc, lc
      ensures middlewares == if r != null then r.middlewares + old(middlewares) else old(middlewares)
      ensures initFunc.None? ==> err.None? && value == old(value) && cleanFunc == old(cleanFunc)
      ensures initFunc.Some? ==> value == initFunc.value.value && cleanFunc == initFunc.value.clean &&
                                 err == initFunc.value.result
      ensures E == if initFunc.Some? then [Init(this, requiredApps, initFunc.value)] else []
      ensures lc.hooks == old(lc.hooks) + (if initFunc.Some? then initFunc.value.hooks else [])
      ensures lc.numStarted == old(lc.numStarted) && lc.calls == old(lc.calls)
      ensures Shaped(U, S, D1 + FinishEvents(this, requiredApps, initFunc, err.None?), Prefix(r))
    {
      if r != null {
        r.Before(this);
      }
      err, E := None, [];
      if initFunc.Some? {
        var f := initFunc.value;
        E := [Init(this, requiredApps, f)];
        AppendHooks(lc, f.hooks);
        value, cleanFunc := f.value, f.clean;
        err := f.result;
      }
      FinishShaped(D1, this, requiredApps, initFunc, err.None?);
      assert old(FieldsAfter(this, S[this], D1, Prefix(r)));
      ShapedStep(Step(U, S, D1, FinishEvents(this, requiredApps, initFunc, err.None?), Prefix(r), this));
    }

    /** Runs the clean-up function unless already Uninstalled; becomes
        Uninstalled unless the clean-up fails, whose error it returns. `E`
        is the clean-up call made. */
    method Uninstall() returns (err: Option<Error>, ghost E: seq<Event<App>>)
      modifies this`state
      ensures Viewed() == AfterUninstall(old(Viewed()))
      ensures err == UninstallError(old(Viewed()))
      ensures E == CleanEvents(this, old(Viewed()))
    {
      E := [];
      if state == Uninstalled {
        return None, E;
      }
      if cleanFunc.Some? {
        E := [Clean(this, cleanFunc.value)];
        var e := cleanFunc.value.result;
        if e.Some? {
          return e, E;
        }
      }
      state := Uninstalled;
      err := None;
    }
  }

  class Registry {
    var middlewares: seq<Middleware>
    var registered: map<string, App>
    var installed: seq<App>
    const lifecycle: Lifecycle
    var options: Options
    const trace: Trace

    /** Every registered application is registered under its own name. */
    ghost predicate Valid()
      reads this
    {
      forall n :: n in registered ==> registered[n].name == n && n != ""
    }

    /** `NewRegistry()`: nothing registered or installed, an empty
        lifecycle and the default options. */
    constructor ()
      ensures middlewares == [] && registered == map[] && installed == []
      ensures fresh(lifecycle) && lifecycle.hooks == [] && lifecycle.numStarted == 0 && lifecycle.calls == []
      ensures fresh(options) && options.startTimeout == DefaultTimeout &&
              options.stopTimeout == DefaultTimeout && options.errorHandler == Some(Discard)
      ensures fresh(trace) && trace.events == []
    {
      var o := new Options();
      o.Init();
      middlewares, registered, installed := [], map[], [];
      lifecycle := new Lifecycle();
      options := o;
      trace := new Trace();
    }

    /** Registers `app` under its name and points its lookup at this
        registry; a nil app, an empty name or a name already taken is an
        error and changes nothing. */
    method Register(app: App?) returns (err: Option<Error>)
      requires Valid()
      modifies this`registered, (if app == null then {} else {app})`registry
      ensures Valid()
      ensures app == null ==> err == Some(NilApp)
      ensures app != null && app.name == "" ==> err == Some(EmptyName)
      ensures app != null && app.name != "" && app.name in old(registered) ==> err == Some(AlreadyRegistered(app.name))
      ensures err.Some? ==> registered == old(registered) && (app != null ==> app.registry == old(app.registry))
      ensures err.None? <==> app != null && app.name != "" && app.name !in old(registered)
      ensures err.None? ==> registered == old(registered)[app.name := app] && app.registry == this
    {
      if app == null {
        return Some(NilApp);
      }
      if app.name == "" {
        return Some(EmptyName);
      }
      if app.name in registered {
        return Some(AlreadyRegistered(app.name));
      }
      registered := registered[app.name := app];
      app.registry := this;
      err := None;
    }

    /** Replaces the options by `opts`, its zero fields filled in. */
    method SetOptions(opts: Options)
      modifies this`options, opts
      ensures options == opts
      ensures opts.startTimeout == (if old(opts.startTimeout) == 0 then DefaultTimeout else old(opts.startTimeout))
      ensures opts.stopTimeout == (if old(opts.stopTimeout) == 0 then DefaultTimeout else old(opts.stopTimeout))
      ensures opts.errorHandler == (if old(opts.errorHandler).None? then Some(Discard) else old(opts.errorHandler))
    {
      opts.Init();
      options := opts;
    }

    /** Appends to the common middlewares; only allowed (the source panics
        otherwise) while nothing is installed. */
    method Use(mws: seq<Middleware>)
      requires |installed| == 0
      modifies this`middlewares
      ensures middlewares == old(middlewares) + mws
    {
      middlewares := middlewares + mws;
    }

    /** Installs the applications named, in turn, or every registered
        application (in an arbitrary order) when no name is given. The first
        failure rolls back the registry `global` (the package-level
        Uninstall), then reports the application's name and the cause.
        `U` holds the applications the installs can reach. */
    method Install(names: seq<string>, global: Registry, ghost U: set<App>)
      returns (err: Option<Error>, ghost D: seq<Event<App>>, ghost V: map<App, View>)
      requires Valid() && Closed(U) && registered.Values <= U && Elems(global.installed) <= U
      requires global.options.errorHandler.Some?
      modifies U`state, U`requiredApps, U`value, U`cleanFunc, U`middlewares, lifecycle, this`installed,
               Elems(global.installed)`state, global.trace
      ensures Closed(U)
      ensures lifecycle.hooks == old(lifecycle.hooks) + InitHooks(D)
      ensures lifecycle.numStarted == old(lifecycle.numStarted) && lifecycle.calls == old(lifecycle.calls)
      ensures installed == old(installed) + DoneApps(D)
      ensures Tied(D) && Paired(D) && (err.None? ==> Complete(D))
      ensures lifecycle.hooks == old(lifecycle.hooks) + InitHooksOf(installed[|old(installed)|..]) + LastInitHooks(D)
      ensures err.None? ==> LastInitHooks(D) == [] && InitApps(D) == WithInit(installed[|old(installed)|..])
      ensures err.None? ==>
        Run(old(InstalledIn(U)), old(PendingIn(U)), old(UninstalledIn(U)), InstalledIn(U), PendingIn(U), UninstalledIn(U), D)
      ensures err.None? ==> forall x :: x in U ==> x.state == StateAfter(old(x.state), x, D)
      ensures err.None? && names == [] ==> forall n :: n in registered ==> registered[n].state == Installed
      ensures err.None? ==> forall k :: 0 <= k < |names| ==> names[k] in registered && registered[names[k]].state == Installed
      ensures err.Some? ==> err.value.InstallFailed? && FromRun(err.value.cause, D)
      ensures err.Some? && names == [] ==> err.value.app in registered
      ensures err.Some? && names != [] ==>
        exists k :: 0 <= k < |names| && err.value.app == names[k] &&
          (names[k] !in registered ==> err.value.cause == NotRegistered(names[k]))
      ensures DependencyOrdered(DoneApps(D), old(InstalledIn(U))) && Distinct(DoneApps(D))
      ensures forall i, y :: |old(installed)| <= i < |installed| && y in installed[i].requiredApps.Values ==>
        y in old(InstalledIn(U)) || y in installed[..i]
      ensures InitsInOrder(installed[|old(installed)|..], old(InstalledIn(U)))
      ensures forall i, n :: |old(installed)| <= i < |installed| && n in installed[i].requiredNames ==>
        installed[i].registry != null && n in installed[i].registry.registered && n in installed[i].requiredApps &&
        installed[i].requiredApps[n] == installed[i].registry.registered[n] &&
        (installed[i].registry.registered[n] in old(InstalledIn(U)) ||
         installed[i].registry.registered[n] in installed[..i])
      ensures err.None? ==> forall x :: x in U ==>
        (x in installed[|old(installed)|..] <==> old(x.state).Pending() && x.state == Installed)
      ensures err.None? ==> forall x, n :: x in installed[|old(installed)|..] && n in x.requiredNames ==>
        x.registry != null && n in x.registry.registered && x.registry.registered[n].state == Installed
      ensures forall x :: x in U ==> FieldsAfter(x, old(x.Current()), D, middlewares)
      ensures Moved(D) <= U && Moved(D) == Elems(installed[|old(installed)|..]) + (if EndsInit(D) then {D[|D| - 1].app} else {})
      ensures err.None? ==> !EndsInit(D)
      ensures err.None? ==> global.trace.events == old(global.trace.events)
      ensures err.Some? ==> global.RolledBackFrom(V, old(global.trace.events))
      ensures err.Some? ==> V.Keys <= U && forall x :: x in V ==> V[x].state == StateAfter(old(x.state), x, D)
    {
      ghost var I0, P0, N0 := InstalledIn(U), PendingIn(U), UninstalledIn(U);
      StatesIn(U);
      if |names| == 0 {
        err, D, V := InstallAll(global, U);
      } else {
        err, D, V := InstallNames(names, global, U);
      }
      ghost var L := installed[|old(installed)|..];
      HooksAppended(old(lifecycle.hooks), lifecycle.hooks, old(installed), installed, D);
      AppendedInDependencyOrder(old(installed), L, I0);
      InitializedInDependencyOrder(L, I0);
      RegisteredFirst(U, old(installed), installed, D, I0);
      MovedApps(D);
      forall x | x in U ensures FieldsAfter(x, old(x.Current()), D, middlewares) {
        assert FieldsAfter(x, old(Snapshot(U))[x], D, middlewares);
      }
      if err.None? {
        StatesAfter(U, I0, P0, N0, D);
        RegisteredInstalled(U, I0, P0, N0, D);
        NewlyInstalled(U, I0, P0, N0, D);
        forall x | x in U ensures x in L <==> old(x.state).Pending() && x.state == Installed {
          assert x in P0 <==> old(x.state).Pending();
        }
      }
    }

    /** What the installs of one Install call have done so far: the run
        `D` from the installed, pending and Uninstalled applications I0, P0
        and N0, with the lifecycle hooks `h0` (cursor `n0`, calls `c0`) and
        the installed list `i0` it started from, and the fields `S` of the
        applications of `U` before it. */
    ghost predicate Progress(U: set<App>, I0: set<App>, P0: set<App>, N0: set<App>, h0: seq<Hook>, n0: nat,
                             c0: seq<Call>, i0: seq<App>, D: seq<Event<App>>, S: map<App, Fields>)
      reads this, lifecycle, U`state, U`requiredNames, U`requiredApps, U`registry, RegistriesOf(U)`registered
      reads Moved(D)`requiredApps, Moved(D)`requiredNames, Moved(D)`initFunc
      reads U`middlewares, U`value, U`cleanFunc, U`initFunc
    {
      Closed(U) && P0 <= U && Run(I0, P0, N0, InstalledIn(U), PendingIn(U), UninstalledIn(U), D) &&
      Ledger(h0, n0, c0, i0, D) && Tied(D) && Shaped(U, S, D, middlewares)
    }

    /** The lifecycle and the installed list after the run `D`, from the
        hooks `h0` (cursor `n0`, calls `c0`) and the installed list `i0`:
        the run appended its hooks and its installed applications. */
    ghost predicate Ledger(h0: seq<Hook>, n0: nat, c0: seq<Call>, i0: seq<App>, D: seq<Event<App>>)
      reads this, lifecycle
    {
      lifecycle.hooks == h0 + InitHooks(D) && lifecycle.numStarted == n0 && lifecycle.calls == c0 &&
      installed == i0 + DoneApps(D)
    }

    /** The installed list only gains applications of `U`. */
    lemma InstalledWithin(U: set<App>, I0: set<App>, P0: set<App>, N0: set<App>, h0: seq<Hook>, n0: nat,
                          c0: seq<Call>, i0: seq<App>, D: seq<Event<App>>, S: map<App, Fields>)
      requires Progress(U, I0, P0, N0, h0, n0, c0, i0, D, S)
      ensures Elems(installed) <= Elems(i0) + U
    {
      forall x | x in Elems(installed) ensures x in Elems(i0) + U {
        if x !in i0 {
          assert x in Elems(DoneApps(D));
        }
      }
    }

    /** One install of Install's loops: `app.Install` with this registry's
        lifecycle and hooks, the complete run so far extended by its own. */
    method InstallStep(app: App, ghost U: set<App>, ghost I0: set<App>, ghost P0: set<App>, ghost N0: set<App>,
                       ghost h0: seq<Hook>, ghost n0: nat, ghost c0: seq<Call>, ghost i0: seq<App>,
                       ghost D: seq<Event<App>>, ghost S: map<App, Fields>)
      returns (e: Option<Error>, ghost D': seq<Event<App>>)
      requires app in U && Progress(U, I0, P0, N0, h0, n0, c0, i0, D, S) && Complete(D)
      modifies PendingIn(U)`state, PendingIn(U)`requiredApps, PendingIn(U)`value, PendingIn(U)`cleanFunc,
               PendingIn(U)`middlewares, lifecycle, this`installed
      ensures Progress(U, I0, P0, N0, h0, n0, c0, i0, D', S)
      ensures old(InstalledIn(U)) <= InstalledIn(U)
      ensures e.None? <==> app in InstalledIn(U)
      ensures e.None? ==> Complete(D')
      ensures e.Some? ==> FromRun(e.value, D')
    {
      ghost var Ib, Pb, Nb, hb, ib := InstalledIn(U), PendingIn(U), UninstalledIn(U), lifecycle.hooks, installed;
      ghost var Dn;
      MovedListed(D);
      e, Dn := app.Install(lifecycle, this, U, D, S);
      RunTrans(I0, P0, N0, Ib, Pb, Nb, InstalledIn(U), PendingIn(U), UninstalledIn(U), D, Dn);
      RunsCompose(h0, hb, lifecycle.hooks, D, Dn);
      AppsCompose(i0, ib, installed, D, Dn);
      if e.Some? {
        FromRunConcat(e.value, D, Dn);
      }
      D' := D + Dn;
    }

    /** The rollback of Install after a failure, with what the installs
        did so far kept: `g0` is the installed list of `global` before them. */
    method Abort(global: Registry, name: string, cause: Error, ghost g0: seq<App>, ghost U: set<App>,
                 ghost I0: set<App>, ghost P0: set<App>, ghost N0: set<App>, ghost h0: seq<Hook>, ghost n0: nat,
                 ghost c0: seq<Call>, ghost i0: seq<App>, ghost D: seq<Event<App>>, ghost S: map<App, Fields>)
      returns (err: Option<Error>, ghost V: map<App, View>)
      requires Progress(U, I0, P0, N0, h0, n0, c0, i0, D, S)
      requires global.options.errorHandler.Some? && Elems(g0) <= U
      requires (global == this && g0 == i0) || (global != this && global.installed == g0)
      modifies U`state, Elems(g0)`state, global.trace
      ensures err == Some(InstallFailed(name, cause))
      ensures global.RolledBackFrom(V, old(global.trace.events)) && V == old(Views(global.installed))
      ensures RunViews(V, U, I0, P0, N0, D)
      ensures Closed(U) && Ledger(h0, n0, c0, i0, D) && Tied(D) && Moved(D) <= U && Shaped(U, S, D, middlewares)
      ensures DependencyOrdered(DoneApps(D), I0) && Distinct(DoneApps(D))
    {
      InstalledWithin(U, I0, P0, N0, h0, n0, c0, i0, D, S);
      InstalledInDependencyOrder(D, I0);
      ViewsAfterRun(global.installed, U, I0, P0, N0, D);
      MovedListed(D);
      assert Moved(D) <= U;
      V := Views(global.installed);
      err := RollBack(global, name, cause);
      TiedKept(D);
      ClosedKept(U);
    }

    /** One step of Install's loops: install `app` and, when that fails,
        roll back the applications of `global` and report the failure. */
    method InstallNext(app: App, global: Registry, ghost g0: seq<App>, ghost U: set<App>, ghost I0: set<App>,
                       ghost P0: set<App>, ghost N0: set<App>, ghost h0: seq<Hook>, ghost n0: nat,
                       ghost c0: seq<Call>, ghost i0: seq<App>, ghost D: seq<Event<App>>, ghost S: map<App, Fields>)
      returns (err: Option<Error>, ghost D': seq<Event<App>>, ghost V: map<App, View>)
      requires app in U && Progress(U, I0, P0, N0, h0, n0, c0, i0, D, S) && Complete(D)
      requires global.options.errorHandler.Some? && Elems(g0) <= U
      requires (global == this && g0 == i0) || (global != this && global.installed == g0)
      modifies U`state, U`requiredApps, U`value, U`cleanFunc, U`middlewares, lifecycle, this`installed,
               Elems(g0)`state, global.trace
      ensures registered == old(registered)
      ensures err.None? ==> Progress(U, I0, P0, N0, h0, n0, c0, i0, D', S) && Complete(D') && app in InstalledIn(U)
      ensures err.None? ==> old(InstalledIn(U)) <= InstalledIn(U)
      ensures err.None? ==> (global == this && g0 == i0) || (global != this && global.installed == g0)
      ensures err.None? ==> global.trace.events == old(global.trace.events)
      ensures err.Some? ==> err.value.InstallFailed? && err.value.app == app.name &&
                            FromRun(err.value.cause, D')
      ensures err.Some? ==> Closed(U) && Ledger(h0, n0, c0, i0, D') && Tied(D') && Paired(D') && Moved(D') <= U
      ensures err.Some? ==> Shaped(U, S, D', middlewares)
      ensures err.Some? ==> DependencyOrdered(DoneApps(D'), I0) && Distinct(DoneApps(D'))
      ensures err.Some? ==> global.RolledBackFrom(V, old(global.trace.events)) && RunViews(V, U, I0, P0, N0, D')
    {
      var e;
      e, D' := InstallStep(app, U, I0, P0, N0, h0, n0, c0, i0, D, S);
      if e.Some? {
        err, V := Abort(global, app.name, e.value, g0, U, I0, P0, N0, h0, n0, c0, i0, D', S);
      } else {
        err, V := None, map[];
      }
    }

    /** The loop of Install over every registered application. */
    method InstallAll(global: Registry, ghost U: set<App>)
      returns (err: Option<Error>, ghost D: seq<Event<App>>, ghost V: map<App, View>)
      requires Valid() && Closed(U) && registered.Values <= U && Elems(global.installed) <= U
      requires global.options.errorHandler.Some?
      modifies U`state, U`requiredApps, U`value, U`cleanFunc, U`middlewares, lifecycle, this`installed,
               Elems(global.installed)`state, global.trace
      ensures Closed(U)
      ensures Ledger(old(lifecycle.hooks), old(lifecycle.numStarted), old(lifecycle.calls), old(installed), D)
      ensures Tied(D) && Paired(D) && Moved(D) <= U && Shaped(U, old(Snapshot(U)), D, middlewares)
      ensures err.None? ==> Complete(D)
      ensures err.None? ==>
        Run(old(InstalledIn(U)), old(PendingIn(U)), old(UninstalledIn(U)), InstalledIn(U), PendingIn(U), UninstalledIn(U), D)
      ensures err.None? ==> forall n :: n in registered ==> registered[n].state == Installed
      ensures err.Some? ==> err.value.InstallFailed? && FromRun(err.value.cause, D)
      ensures err.Some? ==> err.value.app in registered
      ensures DependencyOrdered(DoneApps(D), old(InstalledIn(U))) && Distinct(DoneApps(D))
      ensures err.None? ==> global.trace.events == old(global.trace.events)
      ensures err.Some? ==> global.RolledBackFrom(V, old(global.trace.events))
      ensures err.Some? ==> RunViews(V, U, old(InstalledIn(U)), old(PendingIn(U)), old(UninstalledIn(U)), D)
    {
      var regs := registered;
      var todo := regs.Keys;
      ghost var I0, P0, N0 := InstalledIn(U), PendingIn(U), UninstalledIn(U);
      ghost var h0, n0, c0, i0 := lifecycle.hooks, lifecycle.numStarted, lifecycle.calls, installed;
      ghost var g0, S := global.installed, Snapshot(U);
      RunFrom(U);
      ShapedRefl(U, middlewares);
      D, V := [], map[];
      while todo != {}
        invariant todo <= regs.Keys && regs == registered
        invariant Progress(U, I0, P0, N0, h0, n0, c0, i0, D, S) && Complete(D)
        invariant (global == this && g0 == i0) || (global != this && global.installed == g0)
        invariant forall m :: m in regs.Keys - todo ==> regs[m] in InstalledIn(U)
        invariant global.trace.events == old(global.trace.events)
        decreases |todo|
      {
        var n :| n in todo;
        var app := regs[n];
        assert app in regs.Values && app.name == n;
        ghost var Ib := InstalledIn(U);
        err, D, V := InstallNext(app, global, g0, U, I0, P0, N0, h0, n0, c0, i0, D, S);
        if err.Some? {
          return;
        }
        KeysDone(regs, todo, n, Ib, InstalledIn(U));
        RemoveCard(todo, n);
        todo := todo - {n};
      }
      InstalledInDependencyOrder(D, I0);
      MovedListed(D);
      ValuesInstalled(regs, U);
      err := None;
    }

    /** The loop of Install over the names given. A name that is not
        registered is reported under that name. */
    method InstallNames(names: seq<string>, global: Registry, ghost U: set<App>)
      returns (err: Option<Error>, ghost D: seq<Event<App>>, ghost V: map<App, View>)
      requires Valid() && Closed(U) && registered.Values <= U && Elems(global.installed) <= U
      requires global.options.errorHandler.Some?
      modifies U`state, U`requiredApps, U`value, U`cleanFunc, U`middlewares, lifecycle, this`installed,
               Elems(global.installed)`state, global.trace
      ensures Closed(U)
      ensures Ledger(old(lifecycle.hooks), old(lifecycle.numStarted), old(lifecycle.calls), old(installed), D)
      ensures Tied(D) && Paired(D) && Moved(D) <= U && Shaped(U, old(Snapshot(U)), D, middlewares)
      ensures err.None? ==> Complete(D)
      ensures err.None? ==>
        Run(old(InstalledIn(U)), old(PendingIn(U)), old(UninstalledIn(U)), InstalledIn(U), PendingIn(U), UninstalledIn(U), D)
      ensures err.None? ==> forall k :: 0 <= k < |names| ==> names[k] in registered && registered[names[k]].state == Installed
      ensures err.Some? ==> err.value.InstallFailed? && FromRun(err.value.cause, D)
      ensures err.Some? ==>
        exists k :: 0 <= k < |names| && err.value.app == names[k] &&
          (names[k] !in registered ==> err.value.cause == NotRegistered(names[k]))
      ensures DependencyOrdered(DoneApps(D), old(InstalledIn(U))) && Distinct(DoneApps(D))
      ensures err.None? ==> global.trace.events == old(global.trace.events)
      ensures err.Some? ==> global.RolledBackFrom(V, old(global.trace.events))
      ensures err.Some? ==> RunViews(V, U, old(InstalledIn(U)), old(PendingIn(U)), old(UninstalledIn(U)), D)
    {
      ghost var I0, P0, N0 := InstalledIn(U), PendingIn(U), UninstalledIn(U);
      ghost var h0, n0, c0, i0 := lifecycle.hooks, lifecycle.numStarted, lifecycle.calls, installed;
      ghost var g0, S := global.installed, Snapshot(U);
      RunFrom(U);
      ShapedRefl(U, middlewares);
      D, V := [], map[];
      for i := 0 to |names|
        invariant Progress(U, I0, P0, N0, h0, n0, c0, i0, D, S) && Complete(D)
        invariant (global == this && g0 == i0) || (global != this && global.installed == g0)
        invariant forall k :: 0 <= k < i ==> names[k] in registered && registered[names[k]] in InstalledIn(U)
        invariant global.trace.events == old(global.trace.events)
      {
        var (app, e) := GetApp(names[i]);
        if e.Some? {
          err, V := Abort(global, names[i], e.value, g0, U, I0, P0, N0, h0, n0, c0, i0, D, S);
          assert err.value.app == names[i] && (names[i] !in registered ==> err.value.cause == NotRegistered(names[i]));
          return;
        }
        assert app in registered.Values;
        ghost var Ib := InstalledIn(U);
        err, D, V := InstallNext(app, global, g0, U, I0, P0, N0, h0, n0, c0, i0, D, S);
        if err.Some? {
          assert err.value.app == names[i];
          return;
        }
        NamesDone(names, i, registered, Ib, InstalledIn(U));
      }
      InstalledInDependencyOrder(D, I0);
      MovedListed(D);
      err := None;
    }

    /** Uninstalls the installed applications from the last one installed
        to the first, handing each clean-up error to the error handler and
        going on; the installed list itself is kept. */
    method Uninstall()
      requires options.errorHandler.Some?
      modifies Elems(installed)`state, trace
      ensures var p := Pass(installed, |installed|, old(Views(installed)));
        (forall j :: 0 <= j < |installed| ==> installed[j].Viewed() == p.0[installed[j]]) &&
        trace.events == old(trace.events) + p.1
    {
      var apps := installed;
      ghost var FV, FE := Pass(apps, |apps|, Views(apps)).0, Pass(apps, |apps|, Views(apps)).1;
      ghost var W, evs: seq<Event<App>> := Views(apps), [];
      PassBegin(apps, W);
      var i := |apps|;
      while i > 0
        invariant 0 <= i <= |apps|
        invariant forall j :: 0 <= j < |apps| ==> apps[j] in W && apps[j].Viewed() == W[apps[j]]
        invariant PassesTo(apps, i, W, evs, FV, FE)
        invariant trace.events == old(trace.events) + evs
      {
        i := i - 1;
        W, evs := UninstallAt(apps, i, W, evs, FV, FE, old(trace.events));
      }
      PassEnd(apps, W, evs, FV, FE);
    }

    /** The step of Uninstall on apps[m]: uninstalls it, then hands its
        error, if any, to the error handler. Before the step the pass has
        `W` and `evs` as its views and events, from apps[m] down it ends in
        `FV` and `FE`; after the step it has `W'` and `evs'`. */
    method UninstallAt(apps: seq<App>, m: nat, ghost W: map<App, View>, ghost evs: seq<Event<App>>,
                       ghost FV: map<App, View>, ghost FE: seq<Event<App>>, ghost T: seq<Event<App>>)
      returns (ghost W': map<App, View>, ghost evs': seq<Event<App>>)
      requires m < |apps| && PassesTo(apps, m + 1, W, evs, FV, FE)
      requires trace.events == T + evs
      requires forall j :: 0 <= j < |apps| ==> apps[j] in W && apps[j].Viewed() == W[apps[j]]
      modifies {apps[m]}`state, trace
      ensures PassesTo(apps, m, W', evs', FV, FE)
      ensures forall j :: 0 <= j < |apps| ==> apps[j] in W' && apps[j].Viewed() == W'[apps[j]]
      ensures trace.events == T + evs'
    {
      var x := apps[m];
      var err;
      ghost var E;
      err, E := x.Uninstall();
      trace.events := trace.events + E;
      if err.Some? {
        trace.events := trace.events + [Handled(err.value)];
      }
      W', evs' := W[x := AfterUninstall(W[x])], evs + StepEvents(x, W[x]);
      assert trace.events == T + evs';
      PassStep(apps, m + 1, m, W, evs, FV, FE, W', evs');
    }

    /** What an uninstall pass over the installed list leaves behind when
        the applications had the views `V` and the trace held `T`: each
        application has its view after the pass, and the trace holds the
        pass's clean-up calls and handled errors after `T`. */
    ghost predicate UninstalledFrom(V: map<App, View>, T: seq<Event<App>>)
      reads this, trace, Elems(installed)
    {
      (forall i :: 0 <= i < |installed| ==> installed[i] in V) &&
      var p := Pass(installed, |installed|, V);
      (forall j :: 0 <= j < |installed| ==> installed[j].Viewed() == p.0[installed[j]]) &&
      trace.events == T + p.1
    }

    /** What a failed install leaves behind: `V` holds the views, clean-up
        functions included, that the installed applications had when the
        rollback began, the uninstall pass ran from them with the trace at
        `T`, and every installed application is Uninstalled unless its
        clean-up fails. */
    ghost predicate RolledBackFrom(V: map<App, View>, T: seq<Event<App>>)
      reads this, trace, Elems(installed)
    {
      V.Keys == Elems(installed) && (forall x :: x in V ==> V[x].clean == x.cleanFunc) &&
      UninstalledFrom(V, T) && RolledBack()
    }

    /** Every installed application is Uninstalled, unless its clean-up
        fails: what an uninstall pass leaves behind. */
    ghost predicate RolledBack()
      reads this, Elems(installed)
    {
      forall i :: 0 <= i < |installed| ==>
        installed[i].state == Uninstalled || CleanFails(installed[i].Viewed())
    }

    /** start: starts the lifecycle; when a hook fails, stops the hooks
        started and returns the error. */
    method Start() returns (err: Option<Error>)
      requires options.errorHandler.Some?
      requires FirstFailure(lifecycle.hooks) < |lifecycle.hooks| ==>
        lifecycle.numStarted + FirstFailure(lifecycle.hooks) <= |lifecycle.hooks|
      modifies lifecycle, trace
      ensures lifecycle.hooks == old(lifecycle.hooks)
      ensures var hs, k := lifecycle.hooks, FirstFailure(lifecycle.hooks);
        k < |hs| ==>
          err == hs[k].onStart.value.result && lifecycle.numStarted == 0 &&
          lifecycle.calls == old(lifecycle.calls) + StartCalls(hs[..k + 1]) + StopCalls(hs, old(lifecycle.numStarted) + k) &&
          trace.events == old(trace.events) + HandledAll(StopErrors(hs, old(lifecycle.numStarted) + k))
      ensures var hs, k := lifecycle.hooks, FirstFailure(lifecycle.hooks);
        k == |hs| ==>
          err.None? && lifecycle.numStarted == old(lifecycle.numStarted) + k &&
          lifecycle.calls == old(lifecycle.calls) + StartCalls(hs) && trace.events == old(trace.events)
    {
      ghost var hs, n0, k := lifecycle.hooks, lifecycle.numStarted, FirstFailure(lifecycle.hooks);
      ghost var c0, t0 := lifecycle.calls, trace.events;
      err := lifecycle.Start();
      assert lifecycle.hooks == hs && lifecycle.numStarted == n0 + k;
      if err.Some? {
        assert k < |hs| && err == hs[k].onStart.value.result;
        ghost var c1 := lifecycle.calls;
        assert c1 == c0 + StartCalls(hs[..k + 1]);
        Stop();
        assert lifecycle.calls == c1 + StopCalls(hs, n0 + k);
        assert trace.events == t0 + HandledAll(StopErrors(hs, n0 + k));
      } else {
        assert k == |hs| && lifecycle.calls == c0 + StartCalls(hs) && trace.events == t0;
      }
    }

    /** stop: stops the started hooks and hands every error to the error
        handler, in the order Stop returned them. */
    method Stop()
      requires options.errorHandler.Some?
      requires lifecycle.numStarted <= |lifecycle.hooks|
      modifies lifecycle, trace
      ensures lifecycle.hooks == old(lifecycle.hooks) && lifecycle.numStarted == 0
      ensures lifecycle.calls == old(lifecycle.calls) + StopCalls(lifecycle.hooks, old(lifecycle.numStarted))
      ensures trace.events == old(trace.events) + HandledAll(StopErrors(lifecycle.hooks, old(lifecycle.numStarted)))
    {
      var errs := lifecycle.Stop();
      for i := 0 to |errs|
        modifies trace
        invariant trace.events == old(trace.events) + HandledAll(errs[..i])
      {
        HandledStep(errs, i);
        trace.events := trace.events + [Handled(errs[i])];
      }
      assert errs[..|errs|] == errs;
    }

    /** `getApp`: the application registered under `name`, or nil and the
        not-registered error. */
    function GetApp(name: string): (r: (App?, Option<Error>))
      reads this
      ensures r.1.None? <==> name in registered
      ensures r.1.None? ==> r.0 == registered[name]
      ensures r.1.Some? ==> r.0 == null && r.1 == Some(NotRegistered(name))
    {
      if name in registered then (registered[name], None) else (null, Some(NotRegistered(name)))
    }

    /** The lookup failure branch of Install's names loop, as written, is
        taken for every unregistered name and always panics: getApp returns
        nil together with its error, and the failure is built from that nil
        application's name. InstallNames reports the name looked up. */
    lemma UnregisteredNamePanics(name: string)
      requires name !in registered
      ensures GetApp(name).1.Some?
      ensures FailureAsWritten(GetApp(name).0, GetApp(name).1.value).None?
    {
    }

    /** The before hook: prepends the common middlewares to the app's. */
    method Before(app: App)
      modifies app`middlewares
      ensures app.middlewares == middlewares + old(app.middlewares)
    {
      if |middlewares| > 0 {
        app.middlewares := middlewares + app.middlewares;
      }
    }

    /** The after hook: appends the app to the installed list. */
    method After(app: App)
      modifies this`installed
      ensures installed == old(installed) + [app]
    {
      installed := installed + [app];
    }
  }
}
