/** What every store operation keeps of a job that a task is driving: the stages recorded so far form a chain, and
    a terminal record is complete. */
module KernelInvariant {
  import opened Options
  import opened KernelModel
  import opened KernelDag

  // ---- shapes of the stage list ------------------------------------------------------------------

  /** Record `i` names its own references, hangs on the output before it and got the fields its stage requires. */
  ghost predicate Linked(id: string, rs: seq<StageRecord>, i: nat)
    requires i < |rs|
  {
    && rs[i].artifacts.input == Some(InputRef(id, rs[i].stage))
    && rs[i].handoffRef == HandoffRef(id, rs[i].stage)
    && rs[i].lineage == LineageRefs(Some(LineageRef(id, rs[i].stage)), Some(RootLineageRef(id)))
    && (i > 0 ==> rs[i].artifacts.upstream == rs[i - 1].artifacts.output)
    && RequiredFields(rs[i].stage) <= rs[i].input.keys
  }

  /** The first `n` records are stages 1 to `n`, in order, all succeeded, each linked to the one before. */
  ghost predicate Chain(id: string, rs: seq<StageRecord>, n: nat) {
    n <= |rs| && forall i :: 0 <= i < n ==>
      && Order(rs[i].stage) == i + 1 && rs[i].status == Succeeded
      && rs[i].artifacts.output == Some(OutputRef(id, rs[i].stage)) && Linked(id, rs, i)
  }

  /** A chain whose last stage `s` is still open. */
  ghost predicate OpenAt(id: string, rs: seq<StageRecord>, s: Stage) {
    && |rs| == Order(s) && Chain(id, rs, |rs| - 1)
    && rs[|rs| - 1].stage == s && rs[|rs| - 1].status == Open && rs[|rs| - 1].artifacts.output == None
    && Linked(id, rs, |rs| - 1)
  }

  /** A chain that ends with a stage that had begun and then failed. */
  ghost predicate Sound(id: string, rs: seq<StageRecord>) {
    && rs != [] && Chain(id, rs, |rs| - 1)
    && Order(rs[|rs| - 1].stage) == |rs| && rs[|rs| - 1].status == Failed
    && rs[|rs| - 1].artifacts.output == Some(StageFailureRef(id, rs[|rs| - 1].stage))
    && Linked(id, rs, |rs| - 1)
  }

  /** The list ends with a stage that was failed without having begun: its input lacks a required field and it
      names its own input, not the output before it, as its upstream. */
  ghost predicate Orphaned(id: string, rs: seq<StageRecord>) {
    && |rs| > 1 && (forall i :: 0 <= i < |rs| ==> Order(rs[i].stage) == i + 1)
    && rs[|rs| - 2].artifacts.output in {None, Some(OutputRef(id, rs[|rs| - 2].stage))}
    && rs[|rs| - 1].status == Failed
    && rs[|rs| - 1].artifacts.upstream == Some(InputRef(id, rs[|rs| - 1].stage))
    && !(RequiredFields(rs[|rs| - 1].stage) <= rs[|rs| - 1].input.keys)
  }

  // ---- shapes of the job -------------------------------------------------------------------------

  ghost predicate Live(j: Job) { !Terminal(j.state) && j.completionRef == None && j.failureRef == None }

  ghost predicate Ready(j: Job, s: Stage) {
    Live(j) && |j.records| == Order(s) - 1 && Chain(j.id, j.records, Order(s) - 1)
  }

  ghost predicate InStage(j: Job, s: Stage) { Live(j) && OpenAt(j.id, j.records, s) && j.currentStage == s }

  /** What a terminal record promises. */
  ghost predicate Settled(j: Job) {
    && Terminal(j.state) && j.completedAt.Some?
    && (j.state == Done ==>
        && |j.records| == 8 && Chain(j.id, j.records, 8)
        && j.completionRef == Some(CompletionRef(j.id)) && j.failureRef == None)
    && (j.state != Done ==>
        && j.failureRef == Some(FailureRef(j.id)) && j.completionRef == None && j.reservation == Released
        && (Sound(j.id, j.records) || Orphaned(j.id, j.records)))
  }

  lemma OrderInjective(s: Stage, t: Stage)
    ensures Order(s) == Order(t) <==> s == t
    ensures 1 <= Order(s) <= 8
    ensures Order(s) == 1 <==> s == ValidateEnqueue
    ensures Order(s) == 8 <==> s == Finalize
  {}

  // ---- the chain under each write -----------------------------------------------------------------

  lemma ChainOutput(id: string, rs: seq<StageRecord>, n: nat)
    requires Chain(id, rs, n) && |rs| == n
    ensures n > 0 ==> PreviousOutput(rs) == rs[n - 1].artifacts.output
    ensures n == 0 ==> PreviousOutput(rs) == None
  {}

  lemma ChainKept(id: string, rs: seq<StageRecord>, more: seq<StageRecord>, n: nat)
    requires Chain(id, rs, n) && n <= |more| && forall i :: 0 <= i < n ==> more[i] == rs[i]
    ensures Chain(id, more, n)
  {
    hide InputRef, OutputRef, HandoffRef, LineageRef, RootLineageRef, RequiredFields, Order;
    forall i | 0 <= i < n
      ensures Order(more[i].stage) == i + 1 && more[i].status == Succeeded
        && more[i].artifacts.output == Some(OutputRef(id, more[i].stage)) && Linked(id, more, i)
    {
      assert Linked(id, rs, i) && more[i] == rs[i] && (i > 0 ==> more[i - 1] == rs[i - 1]);
    }
  }

  lemma FindInChain(id: string, rs: seq<StageRecord>, s: Stage)
    requires forall i :: 0 <= i < |rs| ==> Order(rs[i].stage) == i + 1
    ensures Find(rs, s) == if Order(s) <= |rs| then Order(s) - 1 else |rs|
  {
    OrderInjective(s, s);
    var i := Find(rs, s);
    if i < |rs| { assert Order(rs[i].stage) == i + 1; }
    if Order(s) <= |rs| { OrderInjective(s, rs[Order(s) - 1].stage); }
  }

  lemma OpenOrders(id: string, rs: seq<StageRecord>, s: Stage)
    requires OpenAt(id, rs, s)
    ensures forall i :: 0 <= i < |rs| ==> Order(rs[i].stage) == i + 1
    ensures Find(rs, s) == |rs| - 1
  {
    hide InputRef, OutputRef, HandoffRef, LineageRef, RootLineageRef, RequiredFields;
    FindInChain(id, rs, s);
  }

  ghost predicate Standard(id: string, s: Stage, input: Input) {
    && Get(input.inputRef, InputRef(id, s)) == InputRef(id, s)
    && Get(input.handoffRef, HandoffRef(id, s)) == HandoffRef(id, s)
    && Get(input.lineageRef, LineageRef(id, s)) == LineageRef(id, s)
    && Get(input.root, RootLineageRef(id)) == RootLineageRef(id)
  }

  lemma OpenedLinks(id: string, rs: seq<StageRecord>, s: Stage, before: TaskState, input: Input)
    requires Chain(id, rs, |rs|) && |rs| == Order(s) - 1 && Standard(id, s, input) && RequiredFields(s) <= input.keys
    ensures OpenAt(id, rs + [Opened(id, s, before, input, PreviousOutput(rs))], s)
  {
    hide InputRef, OutputRef, HandoffRef, LineageRef, RootLineageRef, RequiredFields;
    var more := rs + [Opened(id, s, before, input, PreviousOutput(rs))];
    ChainOutput(id, rs, |rs|);
    ChainKept(id, rs, more, |rs|);
    assert Linked(id, more, |rs|);
  }

  lemma OrphanStrands(id: string, rs: seq<StageRecord>, s: Stage, before: TaskState, input: Input)
    requires 0 < |rs| == Order(s) - 1 && forall i :: 0 <= i < |rs| ==> Order(rs[i].stage) == i + 1
    requires rs[|rs| - 1].artifacts.output in {None, Some(OutputRef(id, rs[|rs| - 1].stage))}
    requires Standard(id, s, input) && !(RequiredFields(s) <= input.keys)
    ensures Orphaned(id, rs + [Orphan(id, s, before, input)])
  {
    hide InputRef, OutputRef, HandoffRef, LineageRef, RootLineageRef, RequiredFields;
  }

  lemma SucceedExtends(id: string, rs: seq<StageRecord>, s: Stage, after: TaskState)
    requires OpenAt(id, rs, s)
    ensures Chain(id, rs[|rs| - 1 := SucceededRecord(id, rs[|rs| - 1], after)], |rs|)
  {
    hide InputRef, OutputRef, HandoffRef, LineageRef, RootLineageRef, RequiredFields, CompletionRef, SucceededRecord;
    var n := |rs| - 1;
    var more := rs[n := SucceededRecord(id, rs[n], after)];
    SucceededRecordIs(id, rs[n], after);
    ChainKept(id, rs, more, n);
    assert Linked(id, rs, n);
    assert Linked(id, more, n);
  }

  lemma SucceededRecordIs(id: string, r: StageRecord, after: TaskState)
    requires r.artifacts.input.Some? && r.lineage.lineage.Some? && r.lineage.root.Some?
    ensures var k := SucceededRecord(id, r, after);
      && k.stage == r.stage && k.status == Succeeded && k.input == r.input && k.handoffRef == r.handoffRef
      && k.lineage == r.lineage && k.artifacts.input == r.artifacts.input
      && k.artifacts.upstream == r.artifacts.upstream && k.artifacts.output == Some(OutputRef(id, r.stage))
  {
    hide InputRef, OutputRef, LineageRef, RootLineageRef, CompletionRef;
  }

  lemma FailSounds(id: string, rs: seq<StageRecord>, s: Stage, r: StageRecord)
    requires OpenAt(id, rs, s)
    requires r.stage == s && r.status == Failed
    requires r.input == rs[|rs| - 1].input && r.handoffRef == rs[|rs| - 1].handoffRef
    requires r.lineage == rs[|rs| - 1].lineage && r.artifacts.input == rs[|rs| - 1].artifacts.input
    requires r.artifacts.upstream == rs[|rs| - 1].artifacts.upstream
      && r.artifacts.output == Some(StageFailureRef(id, s))
    ensures Sound(id, rs[|rs| - 1 := r])
  {
    hide InputRef, OutputRef, HandoffRef, LineageRef, RootLineageRef, RequiredFields, StageFailureRef;
    var n := |rs| - 1;
    ChainKept(id, rs, rs[n := r], n);
    assert Linked(id, rs, n);
    assert Linked(id, rs[n := r], n);
  }

  // ---- the job under each operation ------------------------------------------------------------------

  lemma BeginFromReady(j: Job, s: Stage, before: TaskState, input: Input, now: int)
    requires Ready(j, s) && Standard(j.id, s, input)
    requires s == ValidateEnqueue ==> RequiredFields(s) <= input.keys
    ensures var r := BeginStage(j, s, before, input, now);
      if RequiredFields(s) <= input.keys then r.ok && InStage(r.job, s) && r.job.state == j.state
      else
        && !r.ok && Settled(r.job) && r.job.state == Error
        && Orphaned(j.id, r.job.records) && |r.job.records| == Order(s)
  {
    hide InputRef, OutputRef, HandoffRef, LineageRef, RootLineageRef, RequiredFields, Order, Find, Opened, Orphan,
      FailureRef, OpenAt, Orphaned, Linked;
    FindInChain(j.id, j.records, s);
    if RequiredFields(s) <= input.keys {
      OpenedLinks(j.id, j.records, s, before, input);
    } else {
      OrderInjective(s, ValidateEnqueue);
      OrphanStrands(j.id, j.records, s, before, input);
    }
  }

  lemma FieldsArePrefixed(s: Stage, f: string)
    requires f in RequiredFields(s)
    ensures "upstream." <= f && f == Upstream(f[9..]) && f[0] == 'u'
  {
    hide RequiredFields;
    FieldIsUpstream(s, f);
    var k :| f == Upstream(k);
    assert f[9..] == k;
  }

  lemma FieldIsUpstream(s: Stage, f: string)
    requires f in RequiredFields(s)
    ensures exists k :: f == Upstream(k)
  {
    hide Upstream;
  }

  lemma SomethingRequired(s: Stage)
    requires s != ValidateEnqueue
    ensures RequiredFields(s) != {}
  {
    hide Upstream;
  }

  lemma CancelInputLacks(s: Stage)
    requires s != ValidateEnqueue
    ensures !(RequiredFields(s) <= CANCEL_INPUT.keys)
  {
    SomethingRequired(s);
    var f :| f in RequiredFields(s);
    FieldsArePrefixed(s, f);
    hide RequiredFields, Upstream;
    assert f !in CANCEL_INPUT.keys;
  }

  lemma BeginAgain(j: Job, s: Stage, before: TaskState, input: Input, now: int)
    requires InStage(j, s)
    ensures BeginStage(j, s, before, input, now) == Written(j, true)
  {
    OpenOrders(j.id, j.records, s);
    hide Find, Opened, Orphan, Chain, Linked;
  }

  /** A cancel during validation is filed under the compile stage, over a validation record that stays open. */
  lemma BeginOverValidation(j: Job, before: TaskState, now: int)
    requires InStage(j, ValidateEnqueue)
    ensures var r := BeginStage(j, Compile, before, CANCEL_INPUT, now);
      Settled(r.job) && r.job.state == Error && Orphaned(j.id, r.job.records) && |r.job.records| == Order(Compile)
  {
    OpenOrders(j.id, j.records, ValidateEnqueue);
    FindInChain(j.id, j.records, Compile);
    CancelInputLacks(Compile);
    hide InputRef, OutputRef, HandoffRef, LineageRef, RootLineageRef, RequiredFields, Find, Opened, Orphan, Orphaned,
      FailureRef, Linked;
    assert Standard(j.id, Compile, CANCEL_INPUT);
    OrphanStrands(j.id, j.records, Compile, before, CANCEL_INPUT);
  }

  lemma StageFollows(s: Stage)
    ensures s != Finalize ==> Order(NextStage(s)) == Order(s) + 1 && !Terminal(NextState(s)) && NextState(s) != Done
    ensures s == Finalize ==> NextState(s) == Done && Order(s) == 8
  {}

  lemma FinishSucceeds(j: Job, s: Stage, now: int)
    requires InStage(j, s)
    ensures var r := FinishStageSuccess(j, s, NextState(s), now);
      && r.ok && r.job.state == NextState(s)
      && (if s == Finalize then Settled(r.job) else Ready(r.job, NextStage(s)))
  {
    hide Find, SucceededRecord, CompletionRef, Sound, Orphaned, Order, NextState, NextStage, OpenAt, Chain;
    OpenLength(j.id, j.records, s);
    OpenOrders(j.id, j.records, s);
    StageFollows(s);
    SucceedExtends(j.id, j.records, s, NextState(s));
  }

  lemma FinishFails(j: Job, s: Stage, t: TaskState, code: string, now: int)
    requires InStage(j, s) && t in {Error, Cancelled, Timeout}
    ensures var r := FinishStageFailure(j, s, t, code, now); r.ok && Settled(r.job) && r.job.state == t
  {
    hide Find, StageFailureRef, FailureRef, LineageRef, OpenAt, FailedRecord, Sound, Orphaned, Chain, Order,
      CompletionRef;
    OpenLength(j.id, j.records, s);
    OpenOrders(j.id, j.records, s);
    var n := |j.records| - 1;
    FailedRecordIs(j.id, j.records[n], t, code);
    FailSounds(j.id, j.records, s, FailedRecord(j.id, j.records[n], t, code));
  }

  lemma FailedRecordIs(id: string, r: StageRecord, t: TaskState, code: string)
    ensures var f := FailedRecord(id, r, t, code);
      && f.stage == r.stage && f.status == Failed && f.input == r.input && f.handoffRef == r.handoffRef
      && f.lineage == r.lineage && f.artifacts.input == r.artifacts.input
      && f.artifacts.upstream == r.artifacts.upstream && f.artifacts.output == Some(StageFailureRef(id, r.stage))
  {
    hide StageFailureRef, LineageRef;
  }

  lemma OpenLength(id: string, rs: seq<StageRecord>, s: Stage)
    requires OpenAt(id, rs, s)
    ensures |rs| == Order(s) && 1 <= |rs| <= 8 && rs[|rs| - 1].stage == s
  {
    hide Chain, Linked;
  }

  lemma OrphanOverwritten(id: string, rs: seq<StageRecord>, t: TaskState, code: string)
    requires Orphaned(id, rs)
    ensures Orphaned(id, rs[|rs| - 1 := FailedRecord(id, rs[|rs| - 1], t, code)])
  {
    hide StageFailureRef, LineageRef, InputRef, OutputRef, RequiredFields, Order;
  }

  /** Cancelling a stage that never began: the record already says Error and is overwritten with Cancelled. */
  lemma FinishFailsOrphan(j: Job, s: Stage, t: TaskState, code: string, now: int)
    requires Settled(j) && j.state == Error && Orphaned(j.id, j.records) && |j.records| == Order(s)
    requires t in {Error, Cancelled, Timeout}
    ensures var r := FinishStageFailure(j, s, t, code, now);
      r.ok && Settled(r.job) && r.job.state == t && Orphaned(j.id, r.job.records)
  {
    FindInChain(j.id, j.records, s);
    OrderInjective(s, s);
    OrphanOverwritten(j.id, j.records, t, code);
    hide Find, FailureRef, FailedRecord, Orphaned, Sound, Order, Chain;
  }

  lemma TerminalizeRecords(j: Job, t: TaskState, code: string, upstream: Option<string>)
    requires InStage(j, j.currentStage) && t in {Error, Timeout}
    ensures Sound(j.id, TerminalizedRecords(j, t, code, upstream))
  {
    OpenOrders(j.id, j.records, j.currentStage);
    var n := |j.records| - 1;
    assert Linked(j.id, j.records, n);
    hide Chain, Find, StageFailureRef, LineageRef, InputRef, RootLineageRef, HandoffRef, Linked, RequiredFields;
    FailSounds(j.id, j.records, j.currentStage, TerminalizedRecord(j.id, j.records[n], t, code));
  }

  lemma Terminalizes(j: Job, code: string, now: int)
    requires InStage(j, j.currentStage)
    ensures Settled(RequestErrorTerminalization(j, code, now))
      && RequestErrorTerminalization(j, code, now).state == Error
    ensures Settled(RequestDeadlineTerminalization(j, now)) && RequestDeadlineTerminalization(j, now).state == Timeout
  {
    TerminalizeRecords(j, Error, code, None);
    TerminalizeRecords(j, Timeout, "DEADLINE_EXCEEDED", Some(InputRef(j.id, j.currentStage)));
    hide TerminalizedRecords, FailureRef, InputRef, Sound, Orphaned, OpenAt;
  }
}
