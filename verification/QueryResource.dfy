/** console/src/api/query.ts: overlapping requests of which only the latest may write. Requests complete in
    any order, so a run is a sequence of reloads, completions and aborts. */
module QueryResource {
  import opened Common

  datatype Outcome<T> = Resolved(value: T) | Rejected(error: string)

  /** The closure variables and refs, with the requests still under way, how each finished request ended, and
      the versions that wrote data, oldest first. */
  datatype State<T> = State(
    version: nat, controller: Option<nat>, aborted: set<nat>,
    data: Option<T>, error: Option<string>, loading: bool,
    pending: set<nat>, outcomes: map<nat, Outcome<T>>, writers: seq<nat>)

  datatype Event<T> = Reload | Complete(version: nat, outcome: Outcome<T>) | Abort

  function Initial<T>(): State<T> {
    State(0, None, {}, None, None, false, {}, map[], [])
  }

  predicate Enabled<T>(s: State<T>, e: Event<T>) {
    e.Complete? ==> e.version in s.pending
  }

  function SignalAborted<T>(s: State<T>): set<nat> {
    if s.controller.Some? then s.aborted + {s.controller.value} else s.aborted
  }

  function Reloaded<T>(s: State<T>): State<T> {
    var v := s.version + 1;
    s.(version := v, controller := Some(v), aborted := SignalAborted(s), loading := true, error := None,
       pending := s.pending + {v})
  }

  function Completed<T>(s: State<T>, v: nat, o: Outcome<T>): State<T> {
    var s' := s.(pending := s.pending - {v}, outcomes := s.outcomes[v := o]);
    if v != s.version then s'
    else
      match o
      case Resolved(x) => s'.(data := Some(x), error := None, loading := false, writers := s.writers + [v])
      case Rejected(e) => s'.(error := Some(e), loading := false)
  }

  function Aborted<T>(s: State<T>): State<T> {
    s.(aborted := SignalAborted(s), loading := false)
  }

  function Step<T>(s: State<T>, e: Event<T>): State<T> {
    match e
    case Reload => Reloaded(s)
    case Complete(v, o) => Completed(s, v, o)
    case Abort => Aborted(s)
  }

  function Run<T>(s: State<T>, events: seq<Event<T>>): State<T> {
    if events == [] then s else Step(Run(s, events[..|events| - 1]), events[|events| - 1])
  }

  predicate Feasible<T>(s: State<T>, events: seq<Event<T>>) {
    events == [] || (Feasible(s, events[..|events| - 1])
                     && Enabled(Run(s, events[..|events| - 1]), events[|events| - 1]))
  }

  // ---- What every interleaving keeps ----

  ghost predicate RequestsOk<T>(s: State<T>) {
    && (forall v :: v in s.pending ==> 1 <= v <= s.version && v !in s.outcomes)
    && (forall v :: 1 <= v <= s.version && v !in s.pending ==> v in s.outcomes)
    && (forall v :: v in s.outcomes ==> 1 <= v <= s.version)
    && s.controller == (if s.version == 0 then None else Some(s.version))
    && (forall v :: 1 <= v < s.version ==> v in s.aborted)
    && (forall v :: v in s.aborted ==> 1 <= v <= s.version)
  }

  ghost predicate WritersOk<T>(s: State<T>) {
    && (forall i, j :: 0 <= i < j < |s.writers| ==> s.writers[i] < s.writers[j])
    && (forall i :: 0 <= i < |s.writers| ==> s.writers[i] in s.outcomes && s.outcomes[s.writers[i]].Resolved?)
    && s.data == if s.writers == [] then None else LastWritten(s)
  }

  function LastWritten<T>(s: State<T>): Option<T>
    requires s.writers != []
  {
    var v := s.writers[|s.writers| - 1];
    if v in s.outcomes && s.outcomes[v].Resolved? then Some(s.outcomes[v].value) else None
  }

  /** The visible refs are those of the latest request: still loading unless aborted, or as it ended. */
  ghost predicate ShowsLatest<T>(s: State<T>) {
    && (s.loading <==> s.version in s.pending && s.version !in s.aborted)
    && (s.version in s.pending || s.version == 0 ==> s.error.None?)
    && (s.version in s.outcomes ==>
          match s.outcomes[s.version]
          case Resolved(x) =>
            && s.data == Some(x) && s.error.None? && s.writers != []
            && s.writers[|s.writers| - 1] == s.version
          case Rejected(e) => s.error == Some(e))
  }

  ghost predicate Inv<T>(s: State<T>) {
    RequestsOk(s) && WritersOk(s) && ShowsLatest(s)
  }

  lemma ReloadInv<T>(s: State<T>)
    requires Inv(s)
    ensures Inv(Reloaded(s))
  {
  }

  lemma AbortInv<T>(s: State<T>)
    requires Inv(s)
    ensures Inv(Aborted(s))
  {
  }

  lemma CompleteRequests<T>(s: State<T>, v: nat, o: Outcome<T>)
    requires RequestsOk(s) && v in s.pending
    ensures RequestsOk(Completed(s, v, o))
  {
  }

  lemma CompleteWriters<T>(s: State<T>, v: nat, o: Outcome<T>)
    requires RequestsOk(s) && WritersOk(s) && v in s.pending
    ensures WritersOk(Completed(s, v, o))
  {
    forall i | 0 <= i < |s.writers| ensures s.writers[i] != v && s.writers[i] <= s.version {
      assert s.writers[i] in s.outcomes;
    }
  }

  lemma CompleteShows<T>(s: State<T>, v: nat, o: Outcome<T>)
    requires Inv(s) && v in s.pending
    ensures ShowsLatest(Completed(s, v, o))
  {
  }

  lemma StepInv<T>(s: State<T>, e: Event<T>)
    requires Inv(s) && Enabled(s, e)
    ensures Inv(Step(s, e))
  {
    match e
    case Reload => ReloadInv(s);
    case Abort => AbortInv(s);
    case Complete(v, o) =>
      CompleteRequests(s, v, o);
      CompleteWriters(s, v, o);
      CompleteShows(s, v, o);
  }

  lemma {:induction false} RunInv<T>(s: State<T>, events: seq<Event<T>>)
    requires Inv(s) && Feasible(s, events)
    ensures Inv(Run(s, events))
  {
    if events != [] {
      RunInv(s, events[..|events| - 1]);
      StepInv(Run(s, events[..|events| - 1]), events[|events| - 1]);
    }
  }

  lemma {:induction false} VersionGrows<T>(s: State<T>, events: seq<Event<T>>)
    ensures s.version <= Run(s, events).version
    ensures s.writers <= Run(s, events).writers
  {
    if events != [] {
      VersionGrows(s, events[..|events| - 1]);
    }
  }

  /** The same refs, and data not written in between, not even with the same value. */
  predicate SameRefs<T(==)>(s: State<T>, t: State<T>) {
    s.data == t.data && s.error == t.error && s.loading == t.loading && s.version == t.version && s.writers == t.writers
  }

  /** Once superseded, a request never changes data, error or loading, however late it completes. */
  lemma SupersededIsSilent<T>(s: State<T>, events: seq<Event<T>>, v: nat, o: Outcome<T>)
    requires v < s.version
    ensures SameRefs(Run(s, events), Step(Run(s, events), Complete(v, o)))
  {
    VersionGrows(s, events);
  }

  /** In every interleaving: the versions that write data strictly increase, data is what the last of them
      brought, loading means the latest request is under way and not aborted, every superseded request had its
      signal aborted, and when the latest request has ended the refs are its result. */
  lemma LatestWins<T>(events: seq<Event<T>>)
    requires Feasible(Initial<T>(), events)
    ensures var s := Run(Initial<T>(), events);
      && (forall i, j :: 0 <= i < j < |s.writers| ==> s.writers[i] < s.writers[j])
      && s.data == (if s.writers == [] then None else LastWritten(s))
      && (forall i :: 0 <= i < |s.writers| ==> s.writers[i] in s.outcomes && s.outcomes[s.writers[i]].Resolved?)
      && (s.loading <==> s.version in s.pending && s.version !in s.aborted)
      && (forall v :: 1 <= v < s.version ==> v in s.aborted)
      && (s.version in s.outcomes && s.outcomes[s.version].Resolved? ==>
            s.data == Some(s.outcomes[s.version].value) && s.error.None? && !s.loading)
      && (s.version in s.outcomes && s.outcomes[s.version].Rejected? ==>
            s.error == Some(s.outcomes[s.version].error) && !s.loading)
      && (s.pending == {} && s.version > 0 ==> s.version in s.outcomes)
  {
    RunInv(Initial<T>(), events);
  }

  /** Two interleavings with the same number of reloads, whose last request succeeded with the same value,
      end with the same refs. */
  lemma OrderDoesNotMatter<T>(events: seq<Event<T>>, others: seq<Event<T>>)
    requires Feasible(Initial<T>(), events) && Feasible(Initial<T>(), others)
    requires var s, t := Run(Initial<T>(), events), Run(Initial<T>(), others);
      && s.version == t.version && s.version in s.outcomes && t.version in t.outcomes
      && s.outcomes[s.version] == t.outcomes[t.version] && s.outcomes[s.version].Resolved?
    ensures var s, t := Run(Initial<T>(), events), Run(Initial<T>(), others);
      s.data == t.data && s.error == t.error && s.loading == t.loading
  {
    RunInv(Initial<T>(), events);
    RunInv(Initial<T>(), others);
  }

  /** Whether request v completes among these events. */
  predicate Completes<T>(events: seq<Event<T>>, v: nat) {
    events != [] && (Completes(events[..|events| - 1], v) || Ends(events[|events| - 1], v))
  }

  predicate Ends<T>(e: Event<T>, v: nat) {
    e.Complete? && e.version == v
  }

  predicate NoReload<T>(events: seq<Event<T>>) {
    forall i :: 0 <= i < |events| ==> !events[i].Reload?
  }

  /** The latest request has ended since, and shows: one more writer, or an error where there was none. */
  predicate Shows<T(==)>(a: State<T>, r: State<T>) {
    && r.version in r.outcomes && r.version !in r.pending
    && match r.outcomes[r.version]
       case Resolved(x) => r.data == Some(x) && r.writers == a.writers + [r.version]
       case Rejected(e) => r.error == Some(e) && a.error.None? && r.writers == a.writers && r.data == a.data
  }

  predicate SinceAbort<T(==)>(a: State<T>, r: State<T>, ended: bool) {
    r.version == a.version && !r.loading && if ended then Shows(a, r) else SameRefs(a, r)
  }

  lemma SinceAbortStep<T>(a: State<T>, r: State<T>, e: Event<T>, ended: bool)
    requires SinceAbort(a, r, ended) && !e.Reload? && Enabled(r, e)
    requires r.version in r.pending ==> r.error.None?
    ensures SinceAbort(a, Step(r, e), ended || Ends(e, a.version))
  {
  }

  lemma {:induction false} AfterAbort<T>(s: State<T>, events: seq<Event<T>>)
    requires Inv(s) && NoReload(events) && Feasible(Step(s, Abort), events)
    ensures Inv(Run(Step(s, Abort), events))
    ensures SinceAbort(Step(s, Abort), Run(Step(s, Abort), events), Completes(events, s.version))
  {
    var a := Step(s, Abort);
    StepInv(s, Abort);
    RunInv(a, events);
    if events != [] {
      var init, e := events[..|events| - 1], events[|events| - 1];
      AfterAbort(s, init);
      SinceAbortStep(a, Run(a, init), e, Completes(init, s.version));
    }
  }

  /** Aborting stops the spinner but does not supersede. Whatever completes after an abort, until the next reload,
      leaves data, error and loading alone exactly when the latest request is not among it: a loader that ignores its
      signal still writes its data, or its error. */
  lemma AbortDoesNotSupersede<T>(s: State<T>, events: seq<Event<T>>)
    requires Inv(s) && NoReload(events) && Feasible(Step(s, Abort), events)
    ensures SameRefs(Step(s, Abort), Run(Step(s, Abort), events)) <==> !Completes(events, s.version)
    ensures Completes(events, s.version) ==> Shows(Step(s, Abort), Run(Step(s, Abort), events))
  {
    AfterAbort(s, events);
  }

  class Resource<T> {
    var version: nat
    var controller: Option<nat>
    var aborted: set<nat>
    var data: Option<T>
    var error: Option<string>
    var loading: bool
    ghost var pending: set<nat>
    ghost var outcomes: map<nat, Outcome<T>>
    ghost var writers: seq<nat>

    ghost function View(): State<T>
      reads this
    {
      State(version, controller, aborted, data, error, loading, pending, outcomes, writers)
    }

    ghost predicate Valid()
      reads this
    {
      Inv(View())
    }

    constructor ()
      ensures Valid() && View() == Initial()
    {
      version, controller, aborted := 0, None, {};
      data, error, loading := None, None, false;
      pending, outcomes, writers := {}, map[], [];
    }

    method AbortSignal()
      modifies this`aborted
      ensures aborted == SignalAborted(old(View()))
    {
      if controller.Some? {
        aborted := aborted + {controller.value};
      }
    }

    method StartReload() returns (requestVersion: nat)
      requires Valid()
      modifies this
      ensures Valid() && View() == Step(old(View()), Reload) && requestVersion == version
    {
      StepInv(View(), Reload);
      version := version + 1;
      requestVersion := version;
      AbortSignal();
      controller := Some(requestVersion);
      loading := true;
      error := None;
      pending := pending + {requestVersion};
    }

    /** The continuation of a reload, when its loader settles. */
    method Finish(requestVersion: nat, outcome: Outcome<T>)
      requires Valid() && requestVersion in pending
      modifies this
      ensures Valid() && View() == Step(old(View()), Complete(requestVersion, outcome))
    {
      StepInv(View(), Complete(requestVersion, outcome));
      match outcome {
        case Resolved(x) =>
          if requestVersion == version {
            data := Some(x);
            error := None;
            writers := writers + [requestVersion];
          }
        case Rejected(e) =>
          if requestVersion == version {
            error := Some(e);
          }
      }
      if requestVersion == version {
        loading := false;
      }
      pending, outcomes := pending - {requestVersion}, outcomes[requestVersion := outcome];
    }

    method AbortAll()
      requires Valid()
      modifies this
      ensures Valid() && View() == Step(old(View()), Abort)
    {
      StepInv(View(), Abort);
      AbortSignal();
      loading := false;
    }
  }
}
