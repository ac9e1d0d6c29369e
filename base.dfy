/** Values shared by the lifecycle ledger, the applications and the registry:
    errors, the user callbacks (treated as opaque oracles with a fixed outcome)
    and a few sequence helpers. */
module Base {

  datatype Option<+T> = None | Some(value: T)

  /** The errors the bootstrapper produces or passes along. */
  datatype Error =
    | CallbackError(id: nat)                  // returned by a user callback
    | CircularDependency(app: string)         // app.go:85
    | NotRegistered(app: string)              // app.go:51, registry.go:137
    | NilApp                                  // registry.go:40
    | EmptyName                               // registry.go:44
    | AlreadyRegistered(app: string)          // registry.go:48
    | InstallFailed(app: string, cause: Error) // registry.go:102, 117

  /** A user function `func(ctx) error` (or `func() error`): `id` tells
      callbacks apart and `result` is what it returns when invoked. */
  datatype Callback = Callback(id: nat, result: Option<Error>)
  {
    predicate Fails() { result.Some? }
  }

  /** A pair of start and stop callbacks, either of which may be nil. */
  datatype Hook = Hook(onStart: Option<Callback>, onStop: Option<Callback>)

  /** The use-case specific value of an application (an `interface{}`). */
  datatype Value = NilValue | Value(id: nat)

  /** A `func(Standard) Standard` wrapper; only its identity matters here. */
  datatype Middleware = Middleware(id: nat)

  /** An `InitFunc`: when invoked it appends `hooks` to the lifecycle it is
      given and returns the value, the clean-up function and the error. */
  datatype InitFunc = InitFunc(id: nat, value: Value, clean: Option<Callback>,
                               hooks: seq<Hook>, result: Option<Error>)

  /** The installation state of an application. The zero value of the
      source's `state` field is none of its three named constants, so the
      model has a fourth state, Fresh, for an application never installed. */
  datatype State = Fresh | Installing | Installed | Uninstalled
  {
    /** Install proceeds past its two guards only from these states. */
    predicate Pending() { Fresh? || Uninstalled? }
  }

  /** The observable steps of installing and uninstalling applications,
      recorded in a ghost trace. `A` is the application reference type. */
  datatype Event<A> =
    | Begun(app: A)                                     // state set to Installing
    | Init(app: A, apps: map<string, A>, f: InitFunc)   // initFunc invoked with the required apps
    | Done(app: A, apps: map<string, A>, init: Option<InitFunc>) // state set to Installed
    | Clean(app: A, clean: Callback)                    // cleanFunc invoked
    | Handled(err: Error)                               // ErrorHandler invoked

  /** No element occurs twice. */
  ghost predicate Distinct<T>(s: seq<T>) {
    forall i, j :: 0 <= i < j < |s| ==> s[i] != s[j]
  }

  function Reverse<T>(s: seq<T>): (r: seq<T>)
    ensures |r| == |s|
    ensures forall i :: 0 <= i < |s| ==> r[i] == s[|s| - 1 - i]
  {
    if s == [] then [] else Reverse(s[1..]) + [s[0]]
  }

  lemma {:induction false} ReverseConcat<T>(a: seq<T>, b: seq<T>)
    ensures Reverse(a + b) == Reverse(b) + Reverse(a)
  {
    var l, r := Reverse(a + b), Reverse(b) + Reverse(a);
    assert |l| == |r|;
    forall i | 0 <= i < |l| ensures l[i] == r[i] {
      if i < |b| {
        assert r[i] == b[|b| - 1 - i];
      } else {
        assert r[i] == Reverse(a)[i - |b|];
      }
    }
  }

  /** Concatenation is associative. */
  lemma ConcatAssoc<T>(a: seq<T>, b: seq<T>, c: seq<T>)
    ensures (a + b) + c == a + (b + c)
  {
  }
}
