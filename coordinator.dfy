/**
 * CoordinatorBlock: the single sequential step that receives every processing result, admits never-seen URIs into
 * the processed-URL register, keeps the remaining-workload counter and posts events in order. ResourceScope is not
 * part of this model; `IsStartUri` is modelled as equality with the start URI once fragments are stripped. The
 * dataflow plumbing around `Transform` is left out: one call is one sequential step.
 */
module Coordinator {
  import opened Wrappers
  import opened Uris
  import opened Events
  import opened IdGenerators
  import opened Resources
  import opened StateMachines

  datatype WorkflowState = WaitingForActivation | Activated
  datatype WorkflowCommand = Activate | Deactivate

  /** The workflow table: activation only from `WaitingForActivation`, deactivation only from `Activated`. */
  function WorkflowTransitions(s: WorkflowState, c: WorkflowCommand): (t: Option<WorkflowState>)
    ensures t.Some? <==> (s == WaitingForActivation && c == Activate) || (s == Activated && c == Deactivate)
    ensures t.Some? ==> t.value != s
  {
    match (s, c)
    case (WaitingForActivation, Activate) => Some(Activated)
    case (Activated, Deactivate) => Some(WaitingForActivation)
    case _ => None
  }

  /** A result a worker posts back: the resource it processed (null for the seed) and, if it succeeded, new ones. */
  datatype ProcessingResult =
    | SuccessfulProcessingResult(processedResource: Resource?, newResources: seq<Resource>)
    | FailedProcessingResult(processedResource: Resource?)
  {
    /** What `DiscoverNewResources` looks at: a failed result contributes an empty list. */
    function NewResources(): seq<Resource>
    {
      if SuccessfulProcessingResult? then newResources else []
    }
  }

  // ----- The pure view of one coordination step -----

  /** The two fields of the processed resource the coordinator reads. */
  datatype ProcessedView = ProcessedView(originalUri: Option<Uri>, uri: Option<Uri>)

  /**
   * The parts of a processing result the coordinator reads: the processed resource (None for the seed), whether
   * the result is a successful one, and the register key of each new resource (None when its `Uri` is null).
   */
  datatype ResultView = ResultView(processed: Option<ProcessedView>, successful: bool, newKeys: seq<Option<string>>)

  /** The register key of a resource: the `AbsoluteUri` of its current `Uri`. */
  function KeyOf(r: Resource): Option<string>
    reads r
  {
    if r.uri.None? then None else Some(AbsoluteUri(r.uri.value))
  }

  function Keys(rs: seq<Resource>): (ks: seq<Option<string>>)
    reads rs
    ensures |ks| == |rs|
  {
    if rs == [] then [] else Keys(rs[..|rs| - 1]) + [KeyOf(rs[|rs| - 1])]
  }

  lemma {:induction false} KeysAt(rs: seq<Resource>)
    ensures forall i :: 0 <= i < |rs| ==> Keys(rs)[i] == KeyOf(rs[i])
  {
    if rs != [] {
      KeysAt(rs[..|rs| - 1]);
    }
  }

  /** The processed resource's `OriginalUri` and `Uri`; None for the seed result, which has none. */
  function ViewOfProcessed(r: Resource?): (v: Option<ProcessedView>)
    reads r
    ensures v.None? <==> r == null
  {
    if r == null then None else Some(ProcessedView(r.originalUri, r.uri))
  }

  function View(pr: ProcessingResult): (v: ResultView)
    reads pr.processedResource, pr.NewResources()
    ensures v.processed.None? <==> pr.processedResource == null
    ensures v.successful <==> pr.SuccessfulProcessingResult?
  {
    ResultView(ViewOfProcessed(pr.processedResource), pr.SuccessfulProcessingResult?, Keys(pr.NewResources()))
  }

  predicate IsStartUri(startUri: Uri, u: Uri)
    ensures u == startUri ==> IsStartUri(startUri, u)
    ensures IsStartUri(startUri, u) ==> u.scheme == startUri.scheme && u.host == startUri.host && u.path == startUri.path
  {
    StripFragment(u) == StripFragment(startUri)
  }

  /** How the checks on the processed resource end: go on to discovery, or stop with the given events. */
  datatype Precheck = Proceed | Abort(emitted: seq<Event>)

  /**
   * The checks before discovery. A null `OriginalUri` makes `Equals` throw; a null `Uri` makes `AbsoluteUri` throw
   * (in the redirect event or in the register look-up); both exceptions end the step silently.
   */
  function Check(startUri: Uri, processed: Option<ProcessedView>): (r: Precheck)
    ensures r.Abort? ==> processed.Some? && |r.emitted| <= 1
  {
    match processed
    case None => Proceed
    case Some(pv) =>
      if pv.originalUri.None? then Abort([])
      else if IsStartUri(startUri, pv.originalUri.value) && pv.uri != pv.originalUri then
        (if pv.uri.None? then Abort([]) else Abort([RedirectHappenedAtStartUrl(AbsoluteUri(pv.uri.value))]))
      else if pv.uri.None? then Abort([])
      else Proceed
  }

  /**
   * The `Where` in `DiscoverNewResources`, run over the keys in order: `admitted` are the indices whose key was
   * newly registered, `register` the register afterwards. A null key throws, which stops the scan with the
   * registrations (and workload increments) made so far in place.
   */
  datatype Discovery = Discovery(admitted: seq<nat>, register: set<string>, faulted: bool)

  function Discover(reg: set<string>, keys: seq<Option<string>>): (d: Discovery)
    ensures forall j :: 0 <= j < |d.admitted| ==> d.admitted[j] < |keys|
  {
    if keys == [] then Discovery([], reg, false)
    else
      var d := Discover(reg, keys[..|keys| - 1]);
      var last := keys[|keys| - 1];
      if d.faulted then d
      else if last.None? then Discovery(d.admitted, d.register, true)
      else if last.value in d.register then d
      else Discovery(d.admitted + [|keys| - 1], d.register + {last.value}, false)
  }

  /** The elements of `xs` at the positions `idx`, in that order. */
  function Select<T>(xs: seq<T>, idx: seq<nat>): (r: seq<T>)
    requires forall j :: 0 <= j < |idx| ==> idx[j] < |xs|
    ensures |r| == |idx|
  {
    if idx == [] then [] else Select(xs, idx[..|idx| - 1]) + [xs[idx[|idx| - 1]]]
  }

  lemma {:induction false} SelectAt<T>(xs: seq<T>, idx: seq<nat>)
    requires forall j :: 0 <= j < |idx| ==> idx[j] < |xs|
    ensures forall j :: 0 <= j < |idx| ==> Select(xs, idx)[j] == xs[idx[j]]
  {
    if idx != [] {
      SelectAt(xs, idx[..|idx| - 1]);
    }
  }

  /**
   * One coordination step: the register and workload afterwards, the events posted, the positions of the new
   * resources returned and whether the step completed (decremented the workload).
   */
  datatype StepOutcome = StepOutcome(
    register: set<string>, workload: int, emitted: seq<Event>, output: seq<nat>, completed: bool)

  function Step(startUri: Uri, reg: set<string>, workload: int, v: ResultView): (s: StepOutcome)
    ensures forall j :: 0 <= j < |s.output| ==> s.output[j] < |v.newKeys|
  {
    match Check(startUri, v.processed)
    case Abort(emitted) => StepOutcome(reg, workload, emitted, [], false)
    case Proceed => Finish(Discover(reg, Candidates(v)), workload)
  }

  /** The keys `DiscoverNewResources` scans: those of a successful result's new resources, none for a failed one. */
  function Candidates(v: ResultView): seq<Option<string>>
  {
    if v.successful then v.newKeys else []
  }

  /**
   * The end of a step after discovery: a faulted scan keeps its increments and ends silently; otherwise the
   * workload drops by one, `ResourceProcessed` carries the new value, and `NoMoreWorkToDo` follows when it is not
   * positive.
   */
  function Finish(d: Discovery, workload: int): (s: StepOutcome)
    ensures s.register == d.register && s.completed == !d.faulted
    ensures s.workload == workload + |d.admitted| - (if s.completed then 1 else 0)
    ensures NoMoreWorkToDo in s.emitted <==> s.completed && s.workload <= 0
  {
    var w := workload + |d.admitted|;
    if d.faulted then StepOutcome(d.register, w, [], [], false)
    else if w - 1 > 0 then StepOutcome(d.register, w - 1, [ResourceProcessed(w - 1)], d.admitted, true)
    else StepOutcome(d.register, w - 1, [ResourceProcessed(w - 1), NoMoreWorkToDo], [], true)
  }

  // ----- The block -----

  class CoordinatorBlock {
    const stateMachine: StateMachine<WorkflowState, WorkflowCommand>
    const idGenerator: IncrementalIdGenerator
    const lib: UriLibrary
    const startUri: Uri
    /** The processed-URL register. */
    var register: set<string>
    /** The statistics' remaining workload. */
    var workload: int
    /** The `Events` buffer, in posting order. */
    var events: seq<Event>
    /** The results this block posted to itself (the seeds). */
    var posted: seq<ProcessingResult>
    /** How many steps have decremented the workload. */
    ghost var completed: nat

    /** Every registered URI and the activation seed add one unit of work; every completed step removes one. */
    ghost predicate Valid()
      reads this, stateMachine
    {
      stateMachine.transitions == WorkflowTransitions &&
      workload == (if stateMachine.current == Activated then 1 else 0) + |register| - completed
    }

    constructor (idGenerator: IncrementalIdGenerator, lib: UriLibrary, startUri: Uri)
      ensures Valid() && fresh(stateMachine)
      ensures stateMachine.current == WaitingForActivation
      ensures this.idGenerator == idGenerator && this.lib == lib && this.startUri == startUri
      ensures register == {} && workload == 0 && events == [] && posted == [] && completed == 0
    {
      stateMachine := new StateMachine(WorkflowTransitions, WaitingForActivation);
      this.idGenerator := idGenerator;
      this.lib := lib;
      this.startUri := startUri;
      register := {};
      workload := 0;
      events := [];
      posted := [];
      completed := 0;
    }

    /**
     * Activates the workflow by posting a seed result to itself. `postAccepted` is whether the block's input
     * accepts the post; a refused post throws inside the transition's action, which rolls the workload and the
     * state back.
     */
    method TryActivateWorkflow(startUrl: string, postAccepted: bool) returns (activationSuccessful: bool)
      requires Valid()
      modifies this, stateMachine, idGenerator`currentId
      ensures Valid()
      ensures register == old(register) && events == old(events) && completed == old(completed)
      ensures old(stateMachine.current) == Activated ==>
        !activationSuccessful && stateMachine.current == Activated && workload == old(workload) &&
        posted == old(posted) && idGenerator.currentId == old(idGenerator.currentId)
      ensures old(stateMachine.current) == WaitingForActivation ==>
        activationSuccessful == postAccepted && idGenerator.currentId == NextId(old(idGenerator.currentId))
      ensures old(stateMachine.current) == WaitingForActivation && !postAccepted ==>
        stateMachine.current == WaitingForActivation && workload == old(workload) && posted == old(posted)
      ensures old(stateMachine.current) == WaitingForActivation && postAccepted ==>
        stateMachine.current == Activated && workload == old(workload) + 1 &&
        |posted| == |old(posted)| + 1 && posted[..|old(posted)|] == old(posted) &&
        var seed := posted[|posted| - 1];
        seed.SuccessfulProcessingResult? && seed.processedResource == null && |seed.newResources| == 1 &&
        fresh(seed.newResources[0]) &&
        IsSeed(lib, seed.newResources[0], idGenerator.currentId, startUrl)
    {
      activationSuccessful := false;
      var stateTransitionSucceeded := stateMachine.TryTransitNext(Activate);
      if stateTransitionSucceeded {
        workload := workload + 1;
        var id := idGenerator.GetNext();
        var seed := new Resource(lib, id, startUrl, None, true);
        seed.isInternal := true;
        activationSuccessful := postAccepted;
        if activationSuccessful {
          posted := posted + [SuccessfulProcessingResult(null, [seed])];
        } else {
          workload := workload - 1;
          var deactivated := stateMachine.TryTransitNext(Deactivate);
        }
      }
    }

    /**
     * The checks on the processed resource (absent for the seed), following `Check`: `proceed` says whether
     * discovery follows, `emitted` holds the redirect-at-start event when one is sent out.
     */
    method CheckProcessedResource(processed: Resource?) returns (proceed: bool, emitted: seq<Event>)
      ensures var p := Check(startUri, ViewOfProcessed(processed));
        proceed == p.Proceed? && emitted == (if p.Abort? then p.emitted else [])
    {
      proceed, emitted := true, [];
      if processed != null {
        if processed.originalUri.None? {
          return false, [];
        }
        var redirectHappened := processed.uri != processed.originalUri;
        if IsStartUri(startUri, processed.originalUri.value) && redirectHappened {
          if processed.uri.None? {
            return false, [];
          }
          return false, [RedirectHappenedAtStartUrl(AbsoluteUri(processed.uri.value))];
        }
        if processed.uri.None? {
          return false, [];
        }
      }
    }

    /**
     * The `Where` in `DiscoverNewResources`: registers each new resource's `AbsoluteUri` and counts one unit of
     * work per newly registered URI, following `Discover` over the resources' keys. `faulted` is a null `Uri`,
     * which throws.
     */
    method DiscoverNewResources(newResources: seq<Resource>, ghost keys: seq<Option<string>>)
      returns (discovered: seq<Resource>, faulted: bool)
      requires |keys| == |newResources|
      requires forall i :: 0 <= i < |keys| ==> keys[i] == KeyOf(newResources[i])
      modifies this`register, this`workload
      ensures var d := Discover(old(register), keys);
        register == d.register && workload == old(workload) + |d.admitted| && faulted == d.faulted &&
        discovered == Select(newResources, d.admitted)
    {
      ghost var idx: seq<nat> := [];
      discovered := [];
      var i := 0;
      while i < |newResources|
        invariant 0 <= i <= |newResources|
        invariant Discover(old(register), keys[..i]) == Discovery(idx, register, false)
        invariant workload == old(workload) + |idx|
        invariant discovered == Select(newResources, idx)
      {
        var r := newResources[i];
        DiscoverNext(old(register), keys, i);
        if r.uri.None? {
          DiscoverStopsAtFault(old(register), keys, i + 1);
          return discovered, true;
        }
        var key := AbsoluteUri(r.uri.value);
        if key !in register {
          register := register + {key};
          workload := workload + 1;
          SelectNext(newResources, idx, i);
          discovered := discovered + [r];
          idx := idx + [i];
        }
        i := i + 1;
      }
      assert keys[..i] == keys;
      faulted := false;
    }

    /**
     * Decrements the workload after discovery and posts `ResourceProcessed`, then `NoMoreWorkToDo` when no work
     * remains; the discovered resources are returned only while work remains.
     */
    method CompleteStep(discovered: seq<Resource>) returns (output: seq<Resource>)
      modifies this`workload, this`completed, this`events
      ensures workload == old(workload) - 1 && completed == old(completed) + 1
      ensures workload > 0 ==> events == old(events) + [ResourceProcessed(workload)] && output == discovered
      ensures workload <= 0 ==> events == old(events) + [ResourceProcessed(workload), NoMoreWorkToDo] && output == []
    {
      workload := workload - 1;
      completed := completed + 1;
      events := events + [ResourceProcessed(workload)];
      if workload > 0 {
        return discovered;
      }
      events := events + [NoMoreWorkToDo];
      return [];
    }

    /** Discovery followed by the end of the step, following `Finish`. */
    method DiscoverAndConclude(newResources: seq<Resource>, ghost keys: seq<Option<string>>)
      returns (output: seq<Resource>)
      requires |keys| == |newResources|
      requires forall i :: 0 <= i < |keys| ==> keys[i] == KeyOf(newResources[i])
      modifies this`register, this`workload, this`completed, this`events
      ensures var d := Discover(old(register), keys); var s := Finish(d, old(workload));
        register == s.register && workload == s.workload && events == old(events) + s.emitted &&
        completed == old(completed) + (if s.completed then 1 else 0) &&
        output == (if s.output == [] then [] else Select(newResources, s.output))
      ensures workload - |register| + completed == old(workload) - |old(register)| + old(completed)
    {
      DiscoverGrows(register, keys);
      var discovered, faulted := DiscoverNewResources(newResources, keys);
      if faulted {
        return [];
      }
      output := CompleteStep(discovered);
    }

    /**
     * One coordination step, proved against `Step`. A null processing result, or any exception, returns null,
     * modelled as the empty output.
     */
    method Transform(processingResult: Option<ProcessingResult>) returns (output: seq<Resource>)
      requires Valid()
      modifies this
      ensures Valid()
      ensures processingResult.None? ==>
        register == old(register) && workload == old(workload) && events == old(events) &&
        completed == old(completed) && output == []
      ensures processingResult.Some? ==>
        var s := Step(startUri, old(register), old(workload), old(View(processingResult.value)));
        register == s.register && workload == s.workload && events == old(events) + s.emitted &&
        completed == old(completed) + (if s.completed then 1 else 0) &&
        output == if s.output == [] then [] else Select(processingResult.value.NewResources(), s.output)
      ensures posted == old(posted)
    {
      if processingResult.None? {
        return [];
      }
      output := TransformResult(processingResult.value);
    }

    /** A block with outstanding work, one unit issued and not yet answered, has a positive workload. */
    lemma OutstandingWorkIsPositive()
      requires Valid()
      requires completed < (if stateMachine.current == Activated then 1 else 0) + |register|
      ensures workload >= 1
    {
    }

    /** `Transform` on a non-null processing result. */
    method TransformResult(pr: ProcessingResult) returns (output: seq<Resource>)
      modifies this`register, this`workload, this`completed, this`events
      ensures var s := Step(startUri, old(register), old(workload), old(View(pr)));
        register == s.register && workload == s.workload && events == old(events) + s.emitted &&
        completed == old(completed) + (if s.completed then 1 else 0) &&
        output == if s.output == [] then [] else Select(pr.NewResources(), s.output)
      ensures workload - |register| + completed == old(workload) - |old(register)| + old(completed)
    {
      ghost var view := View(pr);
      ghost var keys := Keys(pr.NewResources());
      assert Candidates(view) == keys;
      var proceed, emitted := CheckProcessedResource(pr.processedResource);
      if !proceed {
        events := events + emitted;
        return [];
      }
      assert Step(startUri, register, workload, view) == Finish(Discover(register, keys), workload);
      KeysAt(pr.NewResources());
      output := DiscoverAndConclude(pr.NewResources(), keys);
    }
  }

  /** The seed resource: the next id, the start URL, no parent, extracted-from-HTML set, and internal. */
  predicate IsSeed(lib: UriLibrary, r: Resource, id: Int32, startUrl: string)
    reads r
  {
    r.id == id && r.originalUrl == startUrl && r.parentUri.None? && r.isExtractedFromHtmlDocument && r.isInternal &&
    r.originalUri == Classify(lib, startUrl, None).originalUri &&
    r.statusCode == Classify(lib, startUrl, None).statusCode && r.uri == r.originalUri
  }

  // ----- Discovery -----

  /** Discovery only adds to the register, one URI per admitted position. */
  lemma {:induction false} DiscoverGrows(reg: set<string>, keys: seq<Option<string>>)
    ensures var d := Discover(reg, keys);
      reg <= d.register && |d.register| == |reg| + |d.admitted|
  {
    if keys != [] {
      DiscoverGrows(reg, keys[..|keys| - 1]);
    }
  }

  /** Positions are admitted in input order, and each admitted key is registered afterwards. */
  lemma {:induction false} DiscoverKeepsOrder(reg: set<string>, keys: seq<Option<string>>)
    ensures var d := Discover(reg, keys);
      (forall j, k :: 0 <= j < k < |d.admitted| ==> d.admitted[j] < d.admitted[k]) &&
      (forall j :: 0 <= j < |d.admitted| ==> keys[d.admitted[j]].Some? && keys[d.admitted[j]].value in d.register)
  {
    if keys != [] {
      var p := keys[..|keys| - 1];
      DiscoverKeepsOrder(reg, p);
      DiscoverGrows(reg, p);
      var d := Discover(reg, p);
      forall j | 0 <= j < |d.admitted|
        ensures keys[d.admitted[j]] == p[d.admitted[j]]
      {
      }
    }
  }

  /** One more key: the scan over `keys[..n + 1]` in terms of the scan over `keys[..n]`. */
  lemma DiscoverNext(reg: set<string>, keys: seq<Option<string>>, n: nat)
    requires n < |keys|
    ensures var d := Discover(reg, keys[..n]);
      Discover(reg, keys[..n + 1]) ==
        if d.faulted then d
        else if keys[n].None? then Discovery(d.admitted, d.register, true)
        else if keys[n].value in d.register then d
        else Discovery(d.admitted + [n], d.register + {keys[n].value}, false)
  {
    assert keys[..n + 1][..n] == keys[..n];
  }

  lemma SelectNext<T>(xs: seq<T>, idx: seq<nat>, n: nat)
    requires forall j :: 0 <= j < |idx| ==> idx[j] < |xs|
    requires n < |xs|
    ensures Select(xs, idx + [n]) == Select(xs, idx) + [xs[n]]
  {
    assert (idx + [n])[..|idx|] == idx;
  }

  /** Once the scan has faulted, later keys change nothing. */
  lemma {:induction false} DiscoverStopsAtFault(reg: set<string>, keys: seq<Option<string>>, n: nat)
    requires n <= |keys| && Discover(reg, keys[..n]).faulted
    ensures Discover(reg, keys) == Discover(reg, keys[..n])
    decreases |keys| - n
  {
    if n < |keys| {
      assert keys[..n + 1][..n] == keys[..n];
      DiscoverStopsAtFault(reg, keys, n + 1);
    } else {
      assert keys[..n] == keys;
    }
  }

  /** The URIs among the keys. */
  function KeySet(keys: seq<Option<string>>): set<string>
  {
    set j | 0 <= j < |keys| && keys[j].Some? :: keys[j].value
  }

  /** Position `j` carries a URI that is neither registered beforehand nor carried by an earlier position. */
  predicate FirstUnregistered(reg: set<string>, keys: seq<Option<string>>, j: nat)
    requires j < |keys|
  {
    keys[j].Some? && keys[j].value !in reg && forall m :: 0 <= m < j ==> keys[m] != keys[j]
  }

  /**
   * `TryRegister` admits exactly the positions whose URI is new, in input order: a URI already registered is
   * dropped, and one repeated within the batch is admitted at its first position only. The scan faults exactly
   * when some key is null; otherwise every key ends up registered.
   */
  lemma {:induction false} DiscoverAdmitsExactlyFirstUnregistered(reg: set<string>, keys: seq<Option<string>>)
    ensures Discover(reg, keys).faulted <==> None in keys
    ensures !Discover(reg, keys).faulted ==> Discover(reg, keys).register == reg + KeySet(keys)
    ensures !Discover(reg, keys).faulted ==>
      forall j :: 0 <= j < |keys| ==> (j in Discover(reg, keys).admitted <==> FirstUnregistered(reg, keys, j))
  {
    if keys != [] {
      var n := |keys| - 1;
      var p := keys[..n];
      assert keys == p + [keys[n]];
      DiscoverAdmitsExactlyFirstUnregistered(reg, p);
      var d := Discover(reg, p);
      if !d.faulted && keys[n].Some? {
        var k := keys[n].value;
        assert KeySet(keys) == KeySet(p) + {k} by {
          forall x | x in KeySet(keys) ensures x in KeySet(p) + {k} {
            var j :| 0 <= j < |keys| && keys[j].Some? && keys[j].value == x;
            if j < n {
              assert p[j] == keys[j];
            }
          }
          forall x | x in KeySet(p) ensures x in KeySet(keys) {
            var j :| 0 <= j < |p| && p[j].Some? && p[j].value == x;
            assert keys[j] == p[j];
          }
        }
        var e := Discover(reg, keys);
        forall j | 0 <= j < |keys|
          ensures j in e.admitted <==> FirstUnregistered(reg, keys, j)
        {
          if j < n {
            assert FirstUnregistered(reg, keys, j) == FirstUnregistered(reg, p, j);
            assert j in e.admitted <==> j in d.admitted;
          } else {
            assert n !in d.admitted;
            if k in d.register {
              if k !in reg {
                var m :| 0 <= m < |p| && p[m].Some? && p[m].value == k;
                assert keys[m] == keys[n];
              }
            } else {
              forall m | 0 <= m < n ensures keys[m] != keys[n] {
                assert keys[m] == p[m];
                if p[m].Some? {
                  assert p[m].value in KeySet(p);
                }
              }
            }
          }
        }
      }
    }
  }

  // ----- Properties of a step -----

  /**
   * A processed resource that started as the start URI but has since moved posts only the redirect event,
   * outputs nothing and leaves the register and the workload alone, whatever new resources come with it.
   */
  lemma RedirectAtStartAborts(startUri: Uri, reg: set<string>, workload: int, v: ResultView, original: Uri, final: Uri)
    requires v.processed == Some(ProcessedView(Some(original), Some(final)))
    requires IsStartUri(startUri, original) && final != original
    ensures Step(startUri, reg, workload, v) ==
      StepOutcome(reg, workload, [RedirectHappenedAtStartUrl(AbsoluteUri(final))], [], false)
  {
  }

  /** The checks pass exactly for the seed result and for a processed resource with both URIs and no redirect at the start URI. */
  lemma CheckProceedsExactly(startUri: Uri, processed: Option<ProcessedView>)
    ensures Check(startUri, processed) == Proceed <==>
      processed.None? ||
      (processed.value.originalUri.Some? && processed.value.uri.Some? &&
       !(IsStartUri(startUri, processed.value.originalUri.value) && processed.value.uri != processed.value.originalUri))
    ensures Check(startUri, processed).Abort? && Check(startUri, processed).emitted != [] ==>
      processed.Some? && processed.value.uri.Some? &&
      Check(startUri, processed).emitted == [RedirectHappenedAtStartUrl(AbsoluteUri(processed.value.uri.value))]
  {
  }

  /** A failed result admits nothing; its step only decrements the workload. */
  lemma {:induction false} FailedResultAdmitsNothing(startUri: Uri, reg: set<string>, workload: int, v: ResultView)
    requires !v.successful && Check(startUri, v.processed) == Proceed
    ensures var s := Step(startUri, reg, workload, v);
      s.register == reg && s.output == [] && s.completed && s.workload == workload - 1
  {
  }

  /** The step's result is one the checks let through and whose candidate keys are all non-null. */
  predicate Normal(startUri: Uri, v: ResultView)
  {
    Check(startUri, v.processed) == Proceed && None !in Candidates(v)
  }

  /**
   * A normal step completes: discovery adds one unit per admitted URI, then the workload drops by exactly one and
   * `ResourceProcessed` carries the new value; the admitted resources are output while work remains, and
   * otherwise `NoMoreWorkToDo` follows immediately.
   */
  lemma {:induction false} NormalStepCompletes(startUri: Uri, reg: set<string>, workload: int, v: ResultView)
    requires Normal(startUri, v)
    ensures var s := Step(startUri, reg, workload, v); var d := Discover(reg, Candidates(v));
      s.completed && !d.faulted && s.register == d.register &&
      s.workload == workload + |d.admitted| - 1 &&
      (s.workload > 0 ==> s.emitted == [ResourceProcessed(s.workload)] && s.output == d.admitted) &&
      (s.workload <= 0 ==> s.emitted == [ResourceProcessed(s.workload), NoMoreWorkToDo] && s.output == [])
  {
    DiscoverAdmitsExactlyFirstUnregistered(reg, Candidates(v));
  }

  /**
   * While there is at least one unit of work in flight, a normal step never drives the workload negative, the
   * new workload is the work in flight afterwards (the one unit consumed, the admitted ones added), and
   * `NoMoreWorkToDo` is posted exactly when it reaches zero.
   */
  lemma {:induction false} StepKeepsWorkInFlight(startUri: Uri, reg: set<string>, workload: int, v: ResultView)
    requires workload >= 1 && Normal(startUri, v)
    ensures var s := Step(startUri, reg, workload, v);
      s.workload >= 0 && s.workload == workload - 1 + |s.output| &&
      (NoMoreWorkToDo in s.emitted <==> s.workload == 0) && CountNoMoreWorkToDo(s.emitted) <= 1
  {
    NormalStepCompletes(startUri, reg, workload, v);
    var s := Step(startUri, reg, workload, v);
    if s.workload > 0 {
      assert s.emitted == [] + [ResourceProcessed(s.workload)];
    } else {
      assert s.emitted == [ResourceProcessed(s.workload)] + [NoMoreWorkToDo];
      assert s.emitted[..1] == [ResourceProcessed(s.workload)];
    }
  }

  // ----- A run of steps -----

  /**
   * Every step keeps the block's balance: the register grows by the URIs admitted, each adding one unit of work,
   * and a completed step removes one unit.
   */
  lemma {:induction false} StepKeepsBalance(startUri: Uri, reg: set<string>, workload: int, v: ResultView)
    ensures var s := Step(startUri, reg, workload, v);
      reg <= s.register && s.workload + (if s.completed then 1 else 0) == workload + |s.register| - |reg|
  {
    match Check(startUri, v.processed)
    case Abort(_) =>
    case Proceed => DiscoverGrows(reg, Candidates(v));
  }

  /** The register, workload, event stream and number of completed steps after a sequence of steps. */
  datatype Tally = Tally(register: set<string>, workload: int, events: seq<Event>, completed: nat)

  function Run(startUri: Uri, reg: set<string>, workload: int, vs: seq<ResultView>): Tally
  {
    if vs == [] then Tally(reg, workload, [], 0)
    else
      var t := Run(startUri, reg, workload, vs[..|vs| - 1]);
      var s := Step(startUri, t.register, t.workload, vs[|vs| - 1]);
      Tally(s.register, s.workload, t.events + s.emitted, t.completed + if s.completed then 1 else 0)
  }

  /** Over a run the balance is kept: the workload is what was there, plus the URIs admitted, minus the steps completed. */
  lemma {:induction false} RunKeepsBalance(startUri: Uri, reg: set<string>, workload: int, vs: seq<ResultView>)
    ensures var t := Run(startUri, reg, workload, vs);
      reg <= t.register && t.workload + t.completed == workload + |t.register| - |reg|
  {
    if vs != [] {
      var t := Run(startUri, reg, workload, vs[..|vs| - 1]);
      RunKeepsBalance(startUri, reg, workload, vs[..|vs| - 1]);
      StepKeepsBalance(startUri, t.register, t.workload, vs[|vs| - 1]);
    }
  }

  /**
   * Every result answers a unit of work that was issued and not yet answered: before each step, the steps
   * completed (`completed` before the run, plus those of the run so far) are fewer than the units issued (the
   * `seeds` posted, plus one per registered URI). This is what the workers guarantee: one result per resource
   * sent out, and the block sends out only the seed and the resources it registered.
   */
  predicate AnswersIssuedWork(startUri: Uri, seeds: nat, reg: set<string>, workload: int, completed: nat,
                              vs: seq<ResultView>)
  {
    forall k :: 0 <= k < |vs| ==>
      completed + Run(startUri, reg, workload, vs[..k]).completed < seeds + |Run(startUri, reg, workload, vs[..k]).register|
  }

  /**
   * From a state with the block's balance (`CoordinatorBlock.Valid`: the workload is the seeds plus the
   * registered URIs minus the completed steps) and outstanding work, over any run of normal results that each
   * answer issued work: the balance is kept, the workload never goes negative, and `NoMoreWorkToDo` is posted
   * exactly once if the workload ends at zero and never otherwise.
   */
  lemma {:induction false} NoMoreWorkToDoExactlyOnceAtZero(startUri: Uri, seeds: nat, reg: set<string>, workload: int,
                                                           completed: nat, vs: seq<ResultView>)
    requires workload == seeds + |reg| - completed
    requires completed < seeds + |reg|
    requires forall i :: 0 <= i < |vs| ==> Normal(startUri, vs[i])
    requires AnswersIssuedWork(startUri, seeds, reg, workload, completed, vs)
    ensures var t := Run(startUri, reg, workload, vs);
      t.workload == seeds + |t.register| - (completed + t.completed) && t.workload >= 0
    ensures CountNoMoreWorkToDo(Run(startUri, reg, workload, vs).events) ==
      if Run(startUri, reg, workload, vs).workload == 0 then 1 else 0
  {
    RunKeepsBalance(startUri, reg, workload, vs);
    if vs != [] {
      var n := |vs| - 1;
      var p := vs[..n];
      assert AnswersIssuedWork(startUri, seeds, reg, workload, completed, p) by {
        forall k | 0 <= k < |p|
          ensures completed + Run(startUri, reg, workload, p[..k]).completed <
                  seeds + |Run(startUri, reg, workload, p[..k]).register|
        {
          assert p[..k] == vs[..k];
        }
      }
      assert vs[..n] == p;
      var t := Run(startUri, reg, workload, p);
      RunKeepsBalance(startUri, reg, workload, p);
      assert completed + t.completed < seeds + |t.register|;
      if n > 0 {
        NoMoreWorkToDoExactlyOnceAtZero(startUri, seeds, reg, workload, completed, p);
      }
      StepKeepsWorkInFlight(startUri, t.register, t.workload, vs[n]);
      var s := Step(startUri, t.register, t.workload, vs[n]);
      CountNoMoreWorkToDoConcat(t.events, s.emitted);
      assert CountNoMoreWorkToDo(s.emitted) == if s.workload == 0 then 1 else 0;
    }
  }

  // ----- Scenarios -----

  /**
   * The seed result admits the start URI, so the workload, 1 after activation, stays 1 after the seed's own
   * decrement; the start resource is output and only `ResourceProcessed(1)` is posted.
   */
  lemma SeedStepKeepsOneUnit(startUri: Uri, startKey: string)
    ensures var v := ResultView(None, true, [Some(startKey)]);
      Step(startUri, {}, 1, v) == StepOutcome({startKey}, 1, [ResourceProcessed(1)], [0], true)
  {
    var keys := [Some(startKey)];
    assert keys[..0] == [];
    assert Discover({}, keys) == Discovery([0], {startKey}, false);
  }

  /** Two new resources with the same URI in one batch: the first is admitted, the second dropped. */
  lemma RepeatedUriAdmittedOnce(reg: set<string>, key: string)
    requires key !in reg
    ensures Discover(reg, [Some(key), Some(key)]) == Discovery([0], reg + {key}, false)
  {
    var keys := [Some(key), Some(key)];
    assert keys[..1] == [Some(key)];
    assert [Some(key)][..0] == [];
    assert Discover(reg, [Some(key)]) == Discovery([0], reg + {key}, false);
  }
}
