/** What one run of the recursive install (app.go:80-116) records in the
    ghost trace: the applications marked installing, the init calls and the
    Done marks, in the order they happen, together with the laws by which
    the traces of nested runs compose.
    `A` is the application reference type. */
module InstallOrder {
  import opened Base

  /** The required applications an event was performed with. */
  ghost function Deps<A>(e: Event<A>): set<A> {
    match e
    case Init(_, apps, _) => apps.Values
    case Done(_, apps, _) => apps.Values
    case _ => {}
  }

  /** The hooks the init functions of a run append to the lifecycle. */
  function InitHooks<A>(D: seq<Event<A>>): seq<Hook> {
    if D == [] then []
    else InitHooks(D[..|D| - 1]) + (if D[|D| - 1].Init? then D[|D| - 1].f.hooks else [])
  }

  /** The applications marked Done in a run, in order: what the after hook
      appends to the registry's installed list. */
  function DoneApps<A>(D: seq<Event<A>>): seq<A> {
    if D == [] then []
    else DoneApps(D[..|D| - 1]) + (if D[|D| - 1].Done? then [D[|D| - 1].app] else [])
  }

  /** The applications a run marked installing, in order. */
  function BegunApps<A>(D: seq<Event<A>>): seq<A> {
    if D == [] then []
    else BegunApps(D[..|D| - 1]) + (if D[|D| - 1].Begun? then [D[|D| - 1].app] else [])
  }

  /** The applications whose init function a run invoked, in order. */
  function InitApps<A>(D: seq<Event<A>>): seq<A> {
    if D == [] then []
    else InitApps(D[..|D| - 1]) + (if D[|D| - 1].Init? then [D[|D| - 1].app] else [])
  }

  ghost function Elems<T>(s: seq<T>): set<T> {
    set x | x in s
  }

  /** Dependency order: every application an event was performed with was
      installed before the run (in S) or was marked Done earlier in it. */
  ghost predicate DepOrdered<A>(D: seq<Event<A>>, S: set<A>) {
    forall i, y :: 0 <= i < |D| && y in Deps(D[i]) ==> y in S || y in DoneApps(D[..i])
  }

  /** No application is initialised twice, or marked Done twice, in a run. */
  ghost predicate Once<A>(D: seq<Event<A>>) {
    D == [] ||
    var D', e := D[..|D| - 1], D[|D| - 1];
    Once(D') && (e.Init? ==> e.app !in InitApps(D')) && (e.Done? ==> e.app !in DoneApps(D'))
  }

  /** The run ends with an init call. */
  predicate EndsInit<A>(D: seq<Event<A>>) {
    D != [] && D[|D| - 1].Init?
  }

  /** Init calls and Done marks come in pairs: the Done mark of an
      application with an init function comes right after the call of that
      function, made with the same required applications, and an init call
      is followed by its Done mark unless it ends the run. */
  ghost predicate Paired<A>(D: seq<Event<A>>) {
    D == [] ||
    var D', e := D[..|D| - 1], D[|D| - 1];
    Paired(D') &&
    if e.Done? && e.init.Some? then D' != [] && D'[|D'| - 1] == Init(e.app, e.apps, e.init.value)
    else !EndsInit(D')
  }

  /** A run that ended well: paired, and not ending with an init call
      whose Done mark never came. */
  ghost predicate Complete<A>(D: seq<Event<A>>) {
    Paired(D) && !EndsInit(D)
  }

  /** The hooks of the init call that ends a run, if one does. */
  function LastInitHooks<A>(D: seq<Event<A>>): seq<Hook> {
    if EndsInit(D) then D[|D| - 1].f.hooks else []
  }

  /** The hooks of the init functions the Done marks of a run carry. */
  function DoneHooks<A>(D: seq<Event<A>>): seq<Hook> {
    if D == [] then []
    else
      var e := D[|D| - 1];
      DoneHooks(D[..|D| - 1]) + (if e.Done? && e.init.Some? then e.init.value.hooks else [])
  }

  /** The applications marked Done with an init function, in order. */
  function DoneInits<A>(D: seq<Event<A>>): seq<A> {
    if D == [] then []
    else
      var e := D[|D| - 1];
      DoneInits(D[..|D| - 1]) + (if e.Done? && e.init.Some? then [e.app] else [])
  }

  /** In a paired run every init call but a last one is followed by its
      Done mark, so the hooks appended are those of the Done marks' init
      functions, then those of a last init call; likewise for the
      applications initialised. */
  lemma {:induction false} PairedLists<A>(D: seq<Event<A>>)
    requires Paired(D)
    ensures InitHooks(D) == DoneHooks(D) + LastInitHooks(D)
    ensures InitApps(D) == DoneInits(D) + (if EndsInit(D) then [D[|D| - 1].app] else [])
  {
    if D != [] {
      var D', e := D[..|D| - 1], D[|D| - 1];
      PairedLists(D');
      if e.Done? && e.init.Some? {
        assert EndsInit(D') && D'[|D'| - 1].f == e.init.value && D'[|D'| - 1].app == e.app;
      } else {
        assert !EndsInit(D');
      }
    }
  }

  /** A complete run followed by a paired run is paired, and complete when
      the second one is. */
  lemma {:induction false} PairedConcat<A>(D1: seq<Event<A>>, D2: seq<Event<A>>)
    requires Complete(D1) && Paired(D2)
    ensures Paired(D1 + D2) && (Complete(D2) ==> Complete(D1 + D2))
  {
    if D2 == [] {
      assert D1 + D2 == D1;
    } else {
      var D2', e, D := D2[..|D2| - 1], D2[|D2| - 1], D1 + D2;
      assert D[..|D| - 1] == D1 + D2' && D[|D| - 1] == e;
      PairedConcat(D1, D2');
      if D2' == [] {
        assert D1 + D2' == D1;
      } else {
        assert (D1 + D2')[|D1 + D2'| - 1] == D2'[|D2'| - 1];
      }
    }
  }

  /** The events of the last step of a run on `a`: the init call when `a`
      has an init function, then the Done mark when `done`. */
  function FinishEvents<A>(a: A, apps: map<string, A>, init: Option<InitFunc>, done: bool): seq<Event<A>> {
    (if init.Some? then [Init(a, apps, init.value)] else []) + (if done then [Done(a, apps, init)] else [])
  }

  /** The four lists a run builds distribute over concatenation. */
  lemma ConcatLaws<A>(D1: seq<Event<A>>, D2: seq<Event<A>>)
    ensures InitHooks(D1 + D2) == InitHooks(D1) + InitHooks(D2)
    ensures DoneApps(D1 + D2) == DoneApps(D1) + DoneApps(D2)
    ensures InitApps(D1 + D2) == InitApps(D1) + InitApps(D2)
    ensures BegunApps(D1 + D2) == BegunApps(D1) + BegunApps(D2)
  {
    HooksConcat(D1, D2);
    DoneConcat(D1, D2);
    InitConcat(D1, D2);
    BegunConcat(D1, D2);
  }

  lemma {:induction false} HooksConcat<A>(D1: seq<Event<A>>, D2: seq<Event<A>>)
    ensures InitHooks(D1 + D2) == InitHooks(D1) + InitHooks(D2)
    decreases |D2|
  {
    if D2 == [] {
      assert D1 + D2 == D1;
    } else {
      var D2', D := D2[..|D2| - 1], D1 + D2;
      assert D[..|D| - 1] == D1 + D2' && D[|D| - 1] == D2[|D2| - 1];
      HooksConcat(D1, D2');
    }
  }

  lemma {:induction false} DoneConcat<A>(D1: seq<Event<A>>, D2: seq<Event<A>>)
    ensures DoneApps(D1 + D2) == DoneApps(D1) + DoneApps(D2)
    decreases |D2|
  {
    if D2 == [] {
      assert D1 + D2 == D1;
    } else {
      var D2', D := D2[..|D2| - 1], D1 + D2;
      assert D[..|D| - 1] == D1 + D2' && D[|D| - 1] == D2[|D2| - 1];
      DoneConcat(D1, D2');
    }
  }

  lemma {:induction false} InitConcat<A>(D1: seq<Event<A>>, D2: seq<Event<A>>)
    ensures InitApps(D1 + D2) == InitApps(D1) + InitApps(D2)
    decreases |D2|
  {
    if D2 == [] {
      assert D1 + D2 == D1;
    } else {
      var D2', D := D2[..|D2| - 1], D1 + D2;
      assert D[..|D| - 1] == D1 + D2' && D[|D| - 1] == D2[|D2| - 1];
      InitConcat(D1, D2');
    }
  }

  lemma {:induction false} BegunConcat<A>(D1: seq<Event<A>>, D2: seq<Event<A>>)
    ensures BegunApps(D1 + D2) == BegunApps(D1) + BegunApps(D2)
    decreases |D2|
  {
    if D2 == [] {
      assert D1 + D2 == D1;
    } else {
      var D2', D := D2[..|D2| - 1], D1 + D2;
      assert D[..|D| - 1] == D1 + D2' && D[|D| - 1] == D2[|D2| - 1];
      BegunConcat(D1, D2');
    }
  }

  /** The hooks `hs` and the installed list `ins` are `h0` and `i0`
      extended by the run `D`: by its init functions' hooks and, when
      `keep`, by the applications it marked Done. */
  predicate Logs<A(==)>(hs: seq<Hook>, ins: seq<A>, h0: seq<Hook>, i0: seq<A>, D: seq<Event<A>>, keep: bool) {
    hs == h0 + InitHooks(D) && (keep ==> ins == i0 + DoneApps(D))
  }

  /** The empty run extends nothing. */
  lemma LogsRefl<A>(hs: seq<Hook>, ins: seq<A>, keep: bool)
    ensures Logs(hs, ins, hs, ins, [], keep)
  {
    assert hs + [] == hs && ins + [] == ins;
  }

  lemma LogsCompose<A>(h0: seq<Hook>, i0: seq<A>, h1: seq<Hook>, i1: seq<A>, h2: seq<Hook>, i2: seq<A>,
                       D1: seq<Event<A>>, D2: seq<Event<A>>, keep: bool)
    requires Logs(h1, i1, h0, i0, D1, keep) && Logs(h2, i2, h1, i1, D2, keep)
    ensures Logs(h2, i2, h0, i0, D1 + D2, keep)
  {
    ConcatLaws(D1, D2);
  }

  /** Two consecutive runs append the hooks of the combined run. */
  lemma RunsCompose<A>(h0: seq<Hook>, h1: seq<Hook>, h2: seq<Hook>, D1: seq<Event<A>>, D2: seq<Event<A>>)
    requires h1 == h0 + InitHooks(D1) && h2 == h1 + InitHooks(D2)
    ensures h2 == h0 + InitHooks(D1 + D2)
  {
    ConcatLaws(D1, D2);
  }

  /** Two consecutive runs append the applications of the combined run. */
  lemma AppsCompose<A>(i0: seq<A>, i1: seq<A>, i2: seq<A>, D1: seq<Event<A>>, D2: seq<Event<A>>)
    requires i1 == i0 + DoneApps(D1) && i2 == i1 + DoneApps(D2)
    ensures i2 == i0 + DoneApps(D1 + D2)
  {
    ConcatLaws(D1, D2);
  }

  /** The sets of Done, initialised and begun applications of consecutive
      runs add up. */
  lemma SetsCompose<A>(D1: seq<Event<A>>, D2: seq<Event<A>>)
    ensures Elems(DoneApps(D1 + D2)) == Elems(DoneApps(D1)) + Elems(DoneApps(D2))
    ensures Elems(InitApps(D1 + D2)) == Elems(InitApps(D1)) + Elems(InitApps(D2))
    ensures Elems(BegunApps(D1 + D2)) == Elems(BegunApps(D1)) + Elems(BegunApps(D2))
  {
    ConcatLaws(D1, D2);
  }

  /** Every Done (Init) event of a run is listed by DoneApps (InitApps). */
  lemma {:induction false} Listed<A>(D: seq<Event<A>>, i: nat)
    requires i < |D|
    ensures D[i].Done? ==> D[i].app in DoneApps(D)
    ensures D[i].Init? ==> D[i].app in InitApps(D)
  {
    if i < |D| - 1 {
      Listed(D[..|D| - 1], i);
    }
  }

  /** Every application listed by DoneApps has a Done event. */
  lemma {:induction false} DoneEvent<A>(D: seq<Event<A>>, x: A) returns (i: nat)
    requires x in DoneApps(D)
    ensures i < |D| && D[i].Done? && D[i].app == x
  {
    var D', e := D[..|D| - 1], D[|D| - 1];
    if e.Done? && e.app == x {
      i := |D| - 1;
    } else {
      i := DoneEvent(D', x);
      assert D[i] == D'[i];
    }
  }

  /** Where the error of a failed install run comes from: a name that did
      not resolve, a dependency cycle, or an init function the run invoked. */
  ghost predicate FromRun<A>(e: Error, D: seq<Event<A>>) {
    e.NotRegistered? || e.CircularDependency? ||
    exists i :: 0 <= i < |D| && D[i].Init? && D[i].f.result == Some(e)
  }

  lemma FromRunConcat<A>(e: Error, D1: seq<Event<A>>, D2: seq<Event<A>>)
    requires FromRun(e, D2)
    ensures FromRun(e, D1 + D2)
  {
    if !e.NotRegistered? && !e.CircularDependency? {
      var i :| 0 <= i < |D2| && D2[i].Init? && D2[i].f.result == Some(e);
      assert (D1 + D2)[|D1| + i] == D2[i];
    }
  }

  /** Runs compose in dependency order when what the second run found
      installed was installed before the first or during it. */
  lemma {:induction false} DepOrderedConcat<A>(D1: seq<Event<A>>, D2: seq<Event<A>>, S0: set<A>, S1: set<A>)
    requires DepOrdered(D1, S0) && DepOrdered(D2, S1)
    requires S1 <= S0 + Elems(DoneApps(D1))
    ensures DepOrdered(D1 + D2, S0)
  {
    var D := D1 + D2;
    forall i, y | 0 <= i < |D| && y in Deps(D[i]) ensures y in S0 || y in DoneApps(D[..i]) {
      if i < |D1| {
        assert D[i] == D1[i] && y in Deps(D1[i]);
        assert D[..i] == D1[..i];
      } else {
        var k := i - |D1|;
        assert D[i] == D2[k] && y in Deps(D2[k]);
        assert D[..i] == D1 + D2[..k];
        ConcatLaws(D1, D2[..k]);
        if y !in DoneApps(D2[..k]) {
          assert y in S1;
          assert y in Elems(DoneApps(D1)) ==> y in DoneApps(D1);
        }
      }
    }
  }

  /** Runs compose into a run in which nothing happens twice when they
      initialise, and mark Done, different applications. */
  lemma {:induction false} OnceConcat<A>(D1: seq<Event<A>>, D2: seq<Event<A>>)
    requires Once(D1) && Once(D2)
    requires Elems(InitApps(D1)) !! Elems(InitApps(D2))
    requires Elems(DoneApps(D1)) !! Elems(DoneApps(D2))
    ensures Once(D1 + D2)
  {
    if D2 == [] {
      assert D1 + D2 == D1;
    } else {
      var D2', e := D2[..|D2| - 1], D2[|D2| - 1];
      assert InitApps(D2) == InitApps(D2') + (if e.Init? then [e.app] else []);
      assert DoneApps(D2) == DoneApps(D2') + (if e.Done? then [e.app] else []);
      assert Elems(InitApps(D2')) <= Elems(InitApps(D2)) && Elems(DoneApps(D2')) <= Elems(DoneApps(D2));
      OnceConcat(D1, D2');
      ConcatLaws(D1, D2');
      assert (D1 + D2)[..|D1 + D2| - 1] == D1 + D2' && (D1 + D2)[|D1 + D2| - 1] == e;
      assert e.Init? ==> e.app in Elems(InitApps(D2));
      assert e.Done? ==> e.app in Elems(DoneApps(D2));
    }
  }

  /** No application is marked Done twice in a run, and none is
      initialised twice: its lists of Done and of initialised applications
      have no repeats. */
  lemma {:induction false} DoneOnce<A>(D: seq<Event<A>>)
    requires Once(D)
    ensures Distinct(DoneApps(D)) && Distinct(InitApps(D))
  {
    if D != [] {
      var D', e := D[..|D| - 1], D[|D| - 1];
      DoneOnce(D');
      if e.Done? {
        DistinctConcat(DoneApps(D'), [e.app]);
      }
      if e.Init? {
        DistinctConcat(InitApps(D'), [e.app]);
      }
    }
  }

  /** Lists without repeats and without common elements concatenate into
      one without repeats. */
  lemma DistinctConcat<T>(s1: seq<T>, s2: seq<T>)
    requires Distinct(s1) && Distinct(s2) && Elems(s1) !! Elems(s2)
    ensures Distinct(s1 + s2)
  {
    var s := s1 + s2;
    forall i, j | 0 <= i < j < |s| ensures s[i] != s[j] {
      if i < |s1| && j >= |s1| {
        assert s[i] in Elems(s1) && s[j] == s2[j - |s1|] && s[j] in Elems(s2);
      } else if i >= |s1| {
        assert s[i] == s2[i - |s1|] && s[j] == s2[j - |s1|];
      }
    }
  }

  /** What the last step of a run appends to the lifecycle and to the
      installed list, and which application it initialises; its init call
      and Done mark are paired. */
  lemma FinishLists<A>(a: A, apps: map<string, A>, init: Option<InitFunc>, done: bool)
    ensures var E := FinishEvents(a, apps, init, done);
      InitHooks(E) == (if init.Some? then init.value.hooks else []) &&
      DoneApps(E) == (if done then [a] else []) &&
      InitApps(E) == (if init.Some? then [a] else []) &&
      BegunApps(E) == [] && Paired(E) && (done ==> Complete(E))
  {
    var E1: seq<Event<A>> := if init.Some? then [Init(a, apps, init.value)] else [];
    var E2: seq<Event<A>> := if done then [Done(a, apps, init)] else [];
    ConcatLaws(E1, E2);
    assert E1 != [] ==> E1[..0] == [];
    assert E2 != [] ==> E2[..0] == [];
    var E := E1 + E2;
    assert Paired(E1) by {
      if E1 != [] {
        assert E1[..0] == [];
      }
    }
    if done {
      assert E[..|E| - 1] == E1;
    }
  }

  /** The last step of a run on `a` is in dependency order once its
      required applications are in `S`. */
  lemma FinishOrdered<A>(a: A, apps: map<string, A>, init: Option<InitFunc>, done: bool, S: set<A>)
    requires apps.Values <= S
    ensures DepOrdered(FinishEvents(a, apps, init, done), S)
  {
    var E := FinishEvents(a, apps, init, done);
    forall i, y | 0 <= i < |E| && y in Deps(E[i]) ensures y in S {
      assert E[i].Init? || E[i] == Done(a, apps, init);
      assert E[i].Init? ==> E[i].apps == apps;
    }
  }

  /** The last step of a run on `a` extends the run D of its required
      applications: when `a` was neither initialised nor marked Done by D and
      its required applications were installed before D or by it, the whole
      run stays in dependency order with nothing done twice. */
  lemma {:induction false} FinishRun<A>(D: seq<Event<A>>, S0: set<A>, a: A, apps: map<string, A>,
                                        init: Option<InitFunc>, done: bool)
    requires DepOrdered(D, S0) && Once(D)
    requires a !in InitApps(D) && a !in DoneApps(D)
    requires apps.Values <= S0 + Elems(DoneApps(D))
    ensures var E := FinishEvents(a, apps, init, done);
      DepOrdered(D + E, S0) && Once(D + E) &&
      InitHooks(E) == (if init.Some? then init.value.hooks else []) &&
      DoneApps(E) == (if done then [a] else []) &&
      InitApps(E) == (if init.Some? then [a] else [])
  {
    var E := FinishEvents(a, apps, init, done);
    FinishLists(a, apps, init, done);
    FinishOnce(a, apps, init, done);
    assert Elems(InitApps(D)) !! Elems(InitApps(E)) && Elems(DoneApps(D)) !! Elems(DoneApps(E));
    OnceConcat(D, E);
    FinishOrdered(a, apps, init, done, S0 + Elems(DoneApps(D)));
    DepOrderedConcat(D, E, S0, S0 + Elems(DoneApps(D)));
  }

  /** The last step of a run on `a` does nothing twice. */
  lemma FinishOnce<A>(a: A, apps: map<string, A>, init: Option<InitFunc>, done: bool)
    ensures Once(FinishEvents(a, apps, init, done))
  {
    var E1: seq<Event<A>> := if init.Some? then [Init(a, apps, init.value)] else [];
    var E := FinishEvents(a, apps, init, done);
    var Z: seq<Event<A>> := [];
    assert Once(Z) && DoneApps(Z) == [] && InitApps(Z) == [];
    if E1 != [] {
      assert E1[..|E1| - 1] == Z;
      assert Once(E1) && DoneApps(E1) == [];
    }
    if |E| == 2 {
      assert E[..|E| - 1] == E1;
    } else if |E| == 1 {
      assert E[..|E| - 1] == Z;
    }
  }

  /** What an install run leaves behind, from the installed, pending
      (Fresh or Uninstalled) and Uninstalled applications I0, P0, N0 to
      I1, P1, N1: it marks installing only pending applications, and those
      alone leave P0 and N0; the installed applications are those installed
      before and those it marked Done; every application it initialised or
      marked Done is one it marked installing; its events are in dependency
      order, do nothing twice and pair each init call with its Done mark. */
  ghost predicate Run<A>(I0: set<A>, P0: set<A>, N0: set<A>, I1: set<A>, P1: set<A>, N1: set<A>,
                         D: seq<Event<A>>) {
    I0 !! P0 && N0 <= P0 && Elems(BegunApps(D)) <= P0 &&
    I1 == I0 + Elems(DoneApps(D)) && P1 == P0 - Elems(BegunApps(D)) && N1 == N0 - Elems(BegunApps(D)) &&
    Elems(DoneApps(D)) + Elems(InitApps(D)) <= Elems(BegunApps(D)) &&
    DepOrdered(D, I0) && Once(D) && Paired(D)
  }

  /** A run that returns at once. */
  lemma RunRefl<A>(I: set<A>, P: set<A>, N: set<A>)
    requires I !! P && N <= P
    ensures Run(I, P, N, I, P, N, []) && Complete<A>([])
  {
    assert Elems(DoneApps<A>([])) == {} && Elems(InitApps<A>([])) == {} && Elems(BegunApps<A>([])) == {};
  }

  /** Marking a Fresh or Uninstalled application installing. */
  lemma RunBegin<A>(I: set<A>, P: set<A>, N: set<A>, a: A)
    requires I !! P && N <= P && a in P
    ensures Run(I, P, N, I, P - {a}, N - {a}, [Begun(a)]) && Complete([Begun(a)])
  {
    var B: seq<Event<A>> := [Begun(a)];
    assert B[..0] == [];
    assert BegunApps(B) == [a] && DoneApps(B) == [] && InitApps(B) == [];
    assert Elems(BegunApps(B)) == {a};
  }

  /** A run that begins by marking `a` installing lists nothing else
      for it. */
  lemma BegunLists<A>(a: A, D: seq<Event<A>>)
    ensures InitHooks([Begun(a)] + D) == InitHooks(D)
    ensures DoneApps([Begun(a)] + D) == DoneApps(D) && InitApps([Begun(a)] + D) == InitApps(D)
  {
    var B: seq<Event<A>> := [Begun(a)];
    assert B[..0] == [];
    ConcatLaws(B, D);
  }

  /** Consecutive runs (the installs of the required applications) add up
      to one run when the first one is complete. */
  lemma RunTrans<A>(I0: set<A>, P0: set<A>, N0: set<A>, I1: set<A>, P1: set<A>, N1: set<A>,
                    I2: set<A>, P2: set<A>, N2: set<A>, D1: seq<Event<A>>, D2: seq<Event<A>>)
    requires Run(I0, P0, N0, I1, P1, N1, D1) && Run(I1, P1, N1, I2, P2, N2, D2) && Complete(D1)
    ensures Run(I0, P0, N0, I2, P2, N2, D1 + D2) && (Complete(D2) ==> Complete(D1 + D2))
  {
    SetsCompose(D1, D2);
    DepOrderedConcat(D1, D2, I0, I1);
    OnceConcat(D1, D2);
    PairedConcat(D1, D2);
  }

  /** A complete run followed by another one adds up to one run, which
      logs what both log and fails with what the second one fails with. */
  lemma RunStep<A>(I0: set<A>, P0: set<A>, N0: set<A>, I1: set<A>, P1: set<A>, N1: set<A>,
                   I2: set<A>, P2: set<A>, N2: set<A>, D1: seq<Event<A>>, D2: seq<Event<A>>,
                   h0: seq<Hook>, i0: seq<A>, h1: seq<Hook>, i1: seq<A>, h2: seq<Hook>, i2: seq<A>,
                   keep: bool, e: Option<Error>)
    requires Run(I0, P0, N0, I1, P1, N1, D1) && Run(I1, P1, N1, I2, P2, N2, D2) && Complete(D1)
    requires Logs(h1, i1, h0, i0, D1, keep) && Logs(h2, i2, h1, i1, D2, keep)
    requires e.Some? ==> FromRun(e.value, D2)
    ensures Run(I0, P0, N0, I2, P2, N2, D1 + D2) && (Complete(D2) ==> Complete(D1 + D2))
    ensures Logs(h2, i2, h0, i0, D1 + D2, keep) && (e.Some? ==> FromRun(e.value, D1 + D2))
  {
    RunTrans(I0, P0, N0, I1, P1, N1, I2, P2, N2, D1, D2);
    LogsCompose(h0, i0, h1, i1, h2, i2, D1, D2, keep);
    if e.Some? {
      FromRunConcat(e.value, D1, D2);
    }
  }

  /** The run on `a` whose required applications failed: marked installing
      (P0 to P0 - {a}), then the run D of its required applications. */
  lemma RunBegun<A>(I0: set<A>, P0: set<A>, N0: set<A>, I1: set<A>, P1: set<A>, N1: set<A>,
                    D: seq<Event<A>>, a: A)
    requires I0 !! P0 && N0 <= P0 && a in P0
    requires Run(I0, P0 - {a}, N0 - {a}, I1, P1, N1, D)
    ensures Run(I0, P0, N0, I1, P1, N1, [Begun(a)] + D)
  {
    RunBegin(I0, P0, N0, a);
    RunTrans(I0, P0, N0, I0, P0 - {a}, N0 - {a}, I1, P1, N1, [Begun(a)], D);
  }

  /** The run on `a`: marked installing (P0 to P0 - {a}), the complete run D
      of its required applications, the last step; `done` says whether it
      ended Installed. */
  lemma RunOn<A>(I0: set<A>, P0: set<A>, N0: set<A>, I1: set<A>, P1: set<A>, N1: set<A>, D: seq<Event<A>>,
                 a: A, apps: map<string, A>, init: Option<InitFunc>, done: bool)
    requires I0 !! P0 && N0 <= P0 && a in P0
    requires Run(I0, P0 - {a}, N0 - {a}, I1, P1, N1, D) && Complete(D)
    requires apps.Values <= I1
    ensures var R := [Begun(a)] + (D + FinishEvents(a, apps, init, done));
      Run(I0, P0, N0, I1 + (if done then {a} else {}), P1, N1, R) && (done ==> Complete(R))
  {
    var B := [Begun(a)];
    RunBegin(I0, P0, N0, a);
    RunTrans(I0, P0, N0, I0, P0 - {a}, N0 - {a}, I1, P1, N1, B, D);
    BegunLists(a, D);
    assert a in Elems(BegunApps(B + D)) && a !in InitApps(B + D) && a !in DoneApps(B + D) by {
      ConcatLaws(B, D);
      assert B[..0] == [];
      assert a !in Elems(InitApps(D)) && a !in Elems(DoneApps(D));
    }
    RunFinish(I0, P0, N0, I1, P1, N1, B + D, a, apps, init, done);
    ConcatAssoc(B, D, FinishEvents(a, apps, init, done));
  }

  /** The last step of an install of `a` completes the run that marked
      it installing and installed its required applications: the run is
      extended by its init call and, when `done`, its Done mark, and the
      hooks and installed list by what these append. */
  lemma TailRun<A>(I0: set<A>, P0: set<A>, N0: set<A>, I1: set<A>, P1: set<A>, N1: set<A>, D: seq<Event<A>>,
                   a: A, apps: map<string, A>, init: Option<InitFunc>, done: bool, err: Option<Error>,
                   h0: seq<Hook>, i0: seq<A>, h1: seq<Hook>, i1: seq<A>, h2: seq<Hook>, i2: seq<A>, keep: bool)
    requires I0 !! P0 && N0 <= P0 && a in P0
    requires Run(I0, P0 - {a}, N0 - {a}, I1, P1, N1, D) && Complete(D)
    requires apps.Values <= I1
    requires Logs(h1, i1, h0, i0, D, keep)
    requires h2 == h1 + (if init.Some? then init.value.hooks else [])
    requires keep ==> i2 == i1 + (if done then [a] else [])
    requires err.Some? ==> init.Some? && init.value.result == err
    ensures var E := FinishEvents(a, apps, init, done);
      Run(I0, P0, N0, I1 + (if done then {a} else {}), P1, N1, [Begun(a)] + (D + E)) &&
      (done ==> Complete([Begun(a)] + (D + E))) &&
      Logs(h2, i2, h0, i0, D + E, keep) && (err.Some? ==> FromRun(err.value, D + E))
  {
    var E := FinishEvents(a, apps, init, done);
    RunOn(I0, P0, N0, I1, P1, N1, D, a, apps, init, done);
    FinishLists(a, apps, init, done);
    LogsCompose(h0, i0, h1, i1, h2, i2, D, E, keep);
    if err.Some? {
      assert E[0].Init? && E[0].f.result == Some(err.value);
      FromRunConcat(err.value, D, E);
    }
  }

  /** The last step of the run on `a`, once `a` was marked installing and
      its required applications are installed. */
  lemma RunFinish<A>(I0: set<A>, P0: set<A>, N0: set<A>, I1: set<A>, P1: set<A>, N1: set<A>, D: seq<Event<A>>,
                     a: A, apps: map<string, A>, init: Option<InitFunc>, done: bool)
    requires Run(I0, P0, N0, I1, P1, N1, D) && Complete(D)
    requires a in Elems(BegunApps(D)) && a !in InitApps(D) && a !in DoneApps(D)
    requires apps.Values <= I1
    ensures var R := D + FinishEvents(a, apps, init, done);
      Run(I0, P0, N0, I1 + (if done then {a} else {}), P1, N1, R) && (done ==> Complete(R))
  {
    var E := FinishEvents(a, apps, init, done);
    FinishLists(a, apps, init, done);
    FinishRun(D, I0, a, apps, init, done);
    SetsCompose(D, E);
    FinishElems(a, apps, init, done);
    PairedConcat(D, E);
    assert Elems(BegunApps(E)) == {};
    RunExtended(I0, P0, N0, I1, P1, N1, D, D + E, a, done);
  }

  /** A run extended by steps on `a`, which was marked installing, and
      marking at most `a` Done. */
  lemma RunExtended<A>(I0: set<A>, P0: set<A>, N0: set<A>, I1: set<A>, P1: set<A>, N1: set<A>,
                       D: seq<Event<A>>, R: seq<Event<A>>, a: A, done: bool)
    requires Run(I0, P0, N0, I1, P1, N1, D) && a in Elems(BegunApps(D))
    requires Elems(BegunApps(R)) == Elems(BegunApps(D))
    requires Elems(DoneApps(R)) == Elems(DoneApps(D)) + (if done then {a} else {})
    requires Elems(InitApps(R)) <= Elems(InitApps(D)) + {a}
    requires DepOrdered(R, I0) && Once(R) && Paired(R)
    ensures Run(I0, P0, N0, I1 + (if done then {a} else {}), P1, N1, R)
  {
  }

  /** The applications the last step of a run on `a` marks Done and
      initialises: `a` at most. */
  lemma FinishElems<A>(a: A, apps: map<string, A>, init: Option<InitFunc>, done: bool)
    ensures var E := FinishEvents(a, apps, init, done);
      Elems(DoneApps(E)) == (if done then {a} else {}) && Elems(InitApps(E)) <= {a}
  {
    FinishLists(a, apps, init, done);
  }

  /** The state of `x` as the installed (I), pending (P) and Uninstalled
      (N) applications tell it: one in none of them is Installing, a
      pending one that is not Uninstalled is Fresh. */
  ghost function StateIn<A>(x: A, I: set<A>, P: set<A>, N: set<A>): State {
    if x in I then Installed else if x in N then Uninstalled else if x in P then Fresh else Installing
  }

  /** The state of `x` after the run `D` from the state `s`: Installed when
      the run marked it Done, Installing when it only marked it installing,
      and `s` when the run left it alone. */
  ghost function StateAfter<A>(s: State, x: A, D: seq<Event<A>>): State {
    if x in DoneApps(D) then Installed else if x in BegunApps(D) then Installing else s
  }

  /** A run changes the state of the applications it marks, and of no
      other. */
  lemma RunStates<A>(I0: set<A>, P0: set<A>, N0: set<A>, I1: set<A>, P1: set<A>, N1: set<A>,
                     D: seq<Event<A>>, x: A)
    requires Run(I0, P0, N0, I1, P1, N1, D)
    ensures StateIn(x, I1, P1, N1) == StateAfter(StateIn(x, I0, P0, N0), x, D)
  {
    assert x in DoneApps(D) <==> x in Elems(DoneApps(D));
    assert x in BegunApps(D) <==> x in Elems(BegunApps(D));
  }

  lemma {:induction false} SubsetCard<T>(a: set<T>, b: set<T>)
    requires a <= b
    ensures |a| <= |b|
  {
    if a != {} {
      var x :| x in a;
      SubsetCard(a - {x}, b - {x});
    }
  }

  /** Removing a member makes a set one smaller. */
  lemma RemoveCard<T>(a: set<T>, x: T)
    requires x in a
    ensures |a - {x}| == |a| - 1
  {
  }

  lemma SubsetSameCard<T>(a: set<T>, b: set<T>)
    requires a <= b && |a| == |b|
    ensures a == b
  {
    if a != b {
      var x :| x in b && x !in a;
      SubsetCard(a, b - {x});
    }
  }

  /** DepOrdered read off the list of applications marked Done: when `R`
      gives the requirements each Done mark was performed with, the p-th
      application marked Done requires only applications of `S` or
      applications marked Done before it. */
  lemma {:induction false} DoneOrdered<A>(D: seq<Event<A>>, S: set<A>, R: map<A, set<A>>)
    requires DepOrdered(D, S)
    requires forall i :: 0 <= i < |D| && D[i].Done? ==> D[i].app in R && R[D[i].app] == Deps(D[i])
    ensures forall p :: 0 <= p < |DoneApps(D)| ==>
      DoneApps(D)[p] in R && forall y :: y in R[DoneApps(D)[p]] ==> y in S || y in DoneApps(D)[..p]
  {
    if D != [] {
      var D', e := D[..|D| - 1], D[|D| - 1];
      assert DepOrdered(D', S) by {
        forall i, y | 0 <= i < |D'| && y in Deps(D'[i]) ensures y in S || y in DoneApps(D'[..i]) {
          assert D'[i] == D[i] && D'[..i] == D[..i];
        }
      }
      DoneOrdered(D', S, R);
      if e.Done? {
        var L := DoneApps(D);
        assert L == DoneApps(D') + [e.app];
        forall p | 0 <= p < |L| ensures L[p] in R && forall y :: y in R[L[p]] ==> y in S || y in L[..p] {
          if p < |DoneApps(D')| {
            assert L[p] == DoneApps(D')[p] && L[..p] == DoneApps(D')[..p];
          } else {
            assert L[p] == e.app && L[..p] == DoneApps(D[..|D| - 1]);
          }
        }
      }
    }
  }
}
