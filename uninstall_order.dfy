/** What the reverse uninstall pass of a registry (registry.go:126-132 over
    app.go:119-132) does, stated as pure functions over the (state, clean-up)
    views of the installed applications. `A` is the application reference
    type. */
module UninstallOrder {
  import opened Base

  /** The two fields of an application that Uninstall reads or changes. */
  datatype View = View(state: State, clean: Option<Callback>)

  /** The clean-up function is set and returns an error when invoked. */
  predicate CleanFails(v: View) {
    v.clean.Some? && v.clean.value.Fails()
  }

  /** The view after App.Uninstall: an application already Uninstalled, or
      whose clean-up fails, keeps its state; any other becomes Uninstalled. */
  function AfterUninstall(v: View): View {
    if v.state == Uninstalled || CleanFails(v) then v else v.(state := Uninstalled)
  }

  /** The error App.Uninstall returns. */
  function UninstallError(v: View): Option<Error> {
    if v.state != Uninstalled && CleanFails(v) then v.clean.value.result else None
  }

  /** The clean-up call App.Uninstall makes on `x` (none when `x` is already
      Uninstalled or has no clean-up function). */
  function CleanEvents<A>(x: A, v: View): seq<Event<A>> {
    if v.state == Uninstalled || v.clean.None? then [] else [Clean(x, v.clean.value)]
  }

  /** One step of the registry pass on `x`: the clean-up call, then the error
      handler call when the clean-up failed. */
  function StepEvents<A>(x: A, v: View): seq<Event<A>> {
    CleanEvents(x, v) + (if UninstallError(v).Some? then [Handled(UninstallError(v).value)] else [])
  }

  /** Uninstalling apps[n-1], ..., apps[0] in turn from the views `vs`:
      the final views and the events, in the order they happen. */
  ghost function Pass<A>(apps: seq<A>, n: nat, vs: map<A, View>): (r: (map<A, View>, seq<Event<A>>))
    requires n <= |apps| && forall i :: 0 <= i < |apps| ==> apps[i] in vs
    ensures r.0.Keys == vs.Keys
  {
    if n == 0 then (vs, [])
    else
      var x := apps[n - 1];
      var rest := Pass(apps, n - 1, vs[x := AfterUninstall(vs[x])]);
      (rest.0, StepEvents(x, vs[x]) + rest.1)
  }

  /** After the events `evs`, the rest of the pass, apps[n-1] down to
      apps[0] from the views `vs`, ends in the views `fv` and the events
      `fe`. */
  ghost predicate PassesTo<A>(apps: seq<A>, n: nat, vs: map<A, View>, evs: seq<Event<A>>,
                              fv: map<A, View>, fe: seq<Event<A>>) {
    n <= |apps| && (forall i :: 0 <= i < |apps| ==> apps[i] in vs) &&
    fv == Pass(apps, n, vs).0 && fe == evs + Pass(apps, n, vs).1
  }

  /** The whole pass is still to come. */
  lemma PassBegin<A>(apps: seq<A>, vs: map<A, View>)
    requires forall i :: 0 <= i < |apps| ==> apps[i] in vs
    ensures PassesTo(apps, |apps|, vs, [], Pass(apps, |apps|, vs).0, Pass(apps, |apps|, vs).1)
  {
    assert [] + Pass(apps, |apps|, vs).1 == Pass(apps, |apps|, vs).1;
  }

  /** Taking the step on apps[m] off the rest of the pass (n = m + 1):
      the views `vs'` and events `evs'` after it. */
  lemma PassStep<A>(apps: seq<A>, n: nat, m: nat, vs: map<A, View>, evs: seq<Event<A>>,
                    fv: map<A, View>, fe: seq<Event<A>>, vs': map<A, View>, evs': seq<Event<A>>)
    requires n == m + 1 && PassesTo(apps, n, vs, evs, fv, fe)
    requires vs' == vs[apps[m] := AfterUninstall(vs[apps[m]])]
    requires evs' == evs + StepEvents(apps[m], vs[apps[m]])
    ensures PassesTo(apps, m, vs', evs', fv, fe)
  {
    var x := apps[m];
    var rest := Pass(apps, m, vs');
    assert evs + (StepEvents(x, vs[x]) + rest.1) == evs' + rest.1;
  }

  /** Nothing of the pass is left: its views and events are those reached. */
  lemma PassEnd<A>(apps: seq<A>, vs: map<A, View>, evs: seq<Event<A>>, fv: map<A, View>, fe: seq<Event<A>>)
    requires PassesTo(apps, 0, vs, evs, fv, fe)
    ensures fv == vs && fe == evs
  {
    assert evs + [] == evs;
  }

  /** The steps of the pass read off the starting views: apps[n-1] first. */
  ghost function Steps<A>(apps: seq<A>, n: nat, vs: map<A, View>): seq<Event<A>>
    requires n <= |apps| && forall i :: 0 <= i < |apps| ==> apps[i] in vs
  {
    if n == 0 then [] else StepEvents(apps[n - 1], vs[apps[n - 1]]) + Steps(apps, n - 1, vs)
  }

  /** A second uninstall changes nothing more. */
  lemma AfterUninstallIdempotent(v: View)
    ensures AfterUninstall(AfterUninstall(v)) == AfterUninstall(v)
    ensures UninstallError(AfterUninstall(v)) == UninstallError(v)
  {
  }

  /** Once the pass is over, each application it visited is Uninstalled
      unless its clean-up failed, in which case its view is unchanged; the
      others are untouched. An error does not stop the pass. */
  lemma {:induction false} PassFinal<A>(apps: seq<A>, n: nat, vs: map<A, View>)
    requires n <= |apps| && forall i :: 0 <= i < |apps| ==> apps[i] in vs
    ensures Pass(apps, n, vs).0.Keys == vs.Keys
    ensures forall x :: x in vs ==>
      Pass(apps, n, vs).0[x] == (if x in apps[..n] then AfterUninstall(vs[x]) else vs[x])
  {
    if n > 0 {
      var x := apps[n - 1];
      var vs' := vs[x := AfterUninstall(vs[x])];
      PassFinal(apps, n - 1, vs');
      forall y | y in vs
        ensures Pass(apps, n, vs).0[y] == (if y in apps[..n] then AfterUninstall(vs[y]) else vs[y])
      {
        assert apps[..n] == apps[..n - 1] + [x];
        if y == x {
          AfterUninstallIdempotent(vs[x]);
        }
      }
    }
  }

  /** When no application occurs twice, the pass performs the steps of
      apps[n-1], ..., apps[0] on their views from before the pass. */
  lemma {:induction false} PassIsSteps<A>(apps: seq<A>, n: nat, vs: map<A, View>, ws: map<A, View>)
    requires n <= |apps| && forall i :: 0 <= i < |apps| ==> apps[i] in vs && apps[i] in ws
    requires Distinct(apps)
    requires forall i :: 0 <= i < n ==> vs[apps[i]] == ws[apps[i]]
    ensures Pass(apps, n, vs).1 == Steps(apps, n, ws)
  {
    if n > 0 {
      var x := apps[n - 1];
      PassIsSteps(apps, n - 1, vs[x := AfterUninstall(vs[x])], ws);
    }
  }

  /** After a full pass every application of `apps` is Uninstalled, unless
      its clean-up fails. */
  lemma PassLeavesUninstalled<A>(apps: seq<A>, vs: map<A, View>)
    requires forall i :: 0 <= i < |apps| ==> apps[i] in vs
    ensures var p := Pass(apps, |apps|, vs).0;
      forall i :: 0 <= i < |apps| ==> apps[i] in p && (p[apps[i]].state == Uninstalled || CleanFails(p[apps[i]]))
  {
    PassFinal(apps, |apps|, vs);
    assert apps[..|apps|] == apps;
  }

  /** Three installed applications X, Y, Z (installed in that order) whose
      clean-ups all exist and only Y's fails: the pass cleans Z, then Y,
      hands Y's error to the handler, then still cleans X; X and Z end
      Uninstalled and Y keeps its state. */
  lemma ThreeAppUninstall<A>(x: A, y: A, z: A, cx: Callback, cy: Callback, cz: Callback, s: State)
    requires x != y && y != z && x != z && s != Uninstalled
    requires !cx.Fails() && cy.Fails() && !cz.Fails()
    ensures var vs := map[x := View(s, Some(cx)), y := View(s, Some(cy)), z := View(s, Some(cz))];
      var p := Pass([x, y, z], 3, vs);
      p.1 == [Clean(z, cz), Clean(y, cy), Handled(cy.result.value), Clean(x, cx)] &&
      p.0.Keys == vs.Keys && p.0[x].state == Uninstalled && p.0[y].state == s && p.0[z].state == Uninstalled
  {
    var apps := [x, y, z];
    var vs := map[x := View(s, Some(cx)), y := View(s, Some(cy)), z := View(s, Some(cz))];
    assert Distinct(apps);
    PassIsSteps(apps, 3, vs, vs);
    PassFinal(apps, 3, vs);
    assert apps[..3] == apps;
    assert StepEvents(x, vs[x]) == [Clean(x, cx)];
    assert StepEvents(y, vs[y]) == [Clean(y, cy), Handled(cy.result.value)];
    assert StepEvents(z, vs[z]) == [Clean(z, cz)];
    assert Steps(apps, 1, vs) == [Clean(x, cx)];
    assert Steps(apps, 2, vs) == [Clean(y, cy), Handled(cy.result.value), Clean(x, cx)];
  }
}
