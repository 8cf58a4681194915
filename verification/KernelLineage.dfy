/** The workflow graph built from a job's stage records, its validator, and when a finished run passes it. */
module KernelLineage {
  import opened Options
  import opened KernelModel
  import opened KernelDag
  import opened KernelInvariant
  import opened KernelProgress

  // ---- renaming a job id inside a reference ------------------------------------------------------

  /** `str::replace`: every occurrence, left to right, without overlap. */
  function Replace(v: string, from: string, to: string): string
    requires from != []
  {
    if v == [] then []
    else if from <= v then to + Replace(v[|from|..], from, to)
    else [v[0]] + Replace(v[1..], from, to)
  }

  function Canonicalize(v: string, actual: string, canonical: string): string {
    if actual == "" || actual == canonical then v else Replace(v, actual, canonical)
  }

  lemma CanonicalNonempty(v: string, actual: string, canonical: string)
    requires v != "" && canonical != ""
    ensures Canonicalize(v, actual, canonical) != ""
  {}

  lemma {:induction false} ReplaceSkips(v: string, from: string, to: string, k: nat)
    requires from != [] && k <= |v| && forall i :: 0 <= i < k ==> !(from <= v[i..])
    ensures Replace(v, from, to) == v[..k] + Replace(v[k..], from, to)
  {
    if k == 0 {
      assert v[0..] == v;
    } else {
      assert v[0..] == v;
      assert forall i :: 0 <= i < k - 1 ==> v[1..][i..] == v[i + 1..];
      ReplaceSkips(v[1..], from, to, k - 1);
      assert v[1..][k - 1..] == v[k..] && [v[0]] + v[1..][..k - 1] == v[..k];
    }
  }

  /** No `jo` in it: every `j` is followed by an `s`. */
  ghost predicate Free(s: string) { forall i :: 0 <= i < |s| && s[i] == 'j' ==> i + 1 < |s| && s[i + 1] == 's' }

  lemma FreeJoin(s: string, t: string)
    requires Free(s) && Free(t)
    ensures Free(s + t)
  {}

  lemma StartsWithJob(from: string, t: string)
    requires "job-" <= from
    ensures from <= t ==> |t| > 3 && t[0] == 'j' && t[1] == 'o' && t[3] == '-'
  {
    assert from[0] == 'j' && from[1] == 'o' && from[3] == '-';
  }

  lemma FreeKeeps(s: string, from: string, to: string)
    requires Free(s) && "job-" <= from
    ensures Replace(s, from, to) == s
  {
    forall i | 0 <= i < |s| ensures !(from <= s[i..]) {
      var t := s[i..];
      StartsWithJob(from, t);
      assert t[0] == s[i] && (|t| > 1 ==> t[1] == s[i + 1]);
    }
    ReplaceSkips(s, from, to, |s|);
    assert s[|s|..] == [] && s[..|s|] + [] == s;
  }

  lemma RootSkips(from: string, rest: string)
    requires "job-" <= from
    ensures forall i :: 0 <= i < |ROOT| ==> !(from <= (ROOT + rest)[i..])
  {
    var v := ROOT + rest;
    forall i | 0 <= i < |ROOT| ensures !(from <= v[i..]) {
      var t := v[i..];
      StartsWithJob(from, t);
      assert t[0] == ROOT[i];
      if i == 6 { assert t[3] == ROOT[9]; }
    }
  }

  /** A reference scoped to a job is renamed in its job part and nowhere else. */
  lemma CanonicalScoped(job: string, canonical: string, suffix: string)
    requires "job-" <= job && Free(suffix)
    ensures Canonicalize(Scoped(job, suffix), job, canonical) == Scoped(canonical, suffix)
  {
    if job != canonical {
      var v := Scoped(job, suffix);
      assert v == ROOT + (job + suffix);
      RootSkips(job, job + suffix);
      ReplaceSkips(v, job, canonical, |ROOT|);
      assert v[..|ROOT|] == ROOT && v[|ROOT|..] == job + suffix;
      assert (job + suffix)[|job|..] == suffix && job <= job + suffix;
      FreeKeeps(suffix, job, canonical);
    }
  }

  lemma KeyIsFree(s: Stage)
    ensures 'j' !in Key(s)
  {}

  lemma StageSuffixIsFree(s: Stage, kind: string)
    requires Free(kind)
    ensures Free(StageSuffix(s, kind))
  {
    KeyIsFree(s);
    OrderInjective(s, s);
    var d := [('0' as int + Order(s)) as char];
    hide Key, Order;
    assert 'j' !in d;
    FreeJoin("/workflow/stages/0", d);
    FreeJoin("/workflow/stages/0" + d, "-");
    FreeJoin("/workflow/stages/0" + d + "-", Key(s));
    FreeJoin("/workflow/stages/0" + d + "-" + Key(s), kind);
  }

  /** A stage's files carry its number and its name. */
  lemma StagePathsRead(s: Stage)
    ensures StagePath(s) == "/workflow/stages/0" + ["012345678"[Order(s)]] + "-" + Key(s)
    ensures Order(Compile) == 2 && Order(Execute) == 5 && Order(Finalize) == 8
    ensures Key(Compile) == "compile" && Key(Persist) == "persist" && Key(Observe) == "record-knowledge-observability"
  {
    var digit := ('0' as int + Order(s)) as char;
    assert digit == "012345678"[Order(s)];
    hide Key;
  }

  lemma ReferencesRead(job: string, s: Stage)
    ensures InputRef(job, s) == "qfs://jobs/" + job + StagePath(s) + "-input.json"
    ensures OutputRef(job, s) == "qfs://jobs/" + job + StagePath(s) + "-output.json"
    ensures LineageRef(job, s) == "qfs://jobs/" + job + StagePath(s) + "-lineage.json"
    ensures HandoffRef(job, s) == "qfs://jobs/" + job + StagePath(s) + "-handoff.json"
    ensures StageFailureRef(job, s) == "qfs://jobs/" + job + StagePath(s) + "-failure.json"
    ensures RootLineageRef(job) == "qfs://jobs/" + job + "/workflow/lineage.jsonl"
    ensures CompletionRef(job) == "qfs://jobs/" + job + "/workflow/completion.json"
    ensures FailureRef(job) == "qfs://jobs/" + job + "/workflow/failure.json"
  {
    hide StagePath;
  }

  // ---- the graph -----------------------------------------------------------------------------------

  datatype Node = Node(
    order: nat, inputRef: string, outputRef: string, handoffRef: string, upstream: Option<string>,
    lineage: Option<string>, root: Option<string>)

  datatype Graph = Graph(
    workflowId: string, rootLineageRef: string, stages: seq<Node>, completion: Option<string>, failure: Option<string>)

  function Renamed(o: Option<string>, actual: string, canonical: string): Option<string> {
    if o.Some? then Some(Canonicalize(o.value, actual, canonical)) else None
  }

  function ToNode(r: StageRecord, actual: string, canonical: string): Node {
    Node(Order(r.stage), Get(Renamed(r.artifacts.input, actual, canonical), ""),
      Get(Renamed(r.artifacts.output, actual, canonical), ""), Canonicalize(r.handoffRef, actual, canonical),
      Renamed(r.artifacts.upstream, actual, canonical), Renamed(r.lineage.lineage, actual, canonical),
      Renamed(r.lineage.root, actual, canonical))
  }

  /** Stable insertion by stage order; the stage id that breaks ties in the source is a function of the stage. */
  function Insert(r: StageRecord, rs: seq<StageRecord>): seq<StageRecord> {
    if rs == [] || Order(r.stage) <= Order(rs[0].stage) then [r] + rs else [rs[0]] + Insert(r, rs[1..])
  }

  function Sort(rs: seq<StageRecord>): seq<StageRecord> { if rs == [] then [] else Insert(rs[0], Sort(rs[1..])) }

  function Nodes(rs: seq<StageRecord>, actual: string, canonical: string): seq<Node> {
    seq(|rs|, i requires 0 <= i < |rs| => ToNode(rs[i], actual, canonical))
  }

  function WorkflowGraph(j: Job): Graph {
    var c := CanonicalId(j.fingerprint);
    Graph("workflow-" + j.fingerprint, RootLineageRef(c), Nodes(Sort(j.records), j.id, c),
      Renamed(j.completionRef, j.id, c), Renamed(j.failureRef, j.id, c))
  }

  lemma {:induction false} SortedIsKept(rs: seq<StageRecord>)
    requires forall i, k :: 0 <= i < k < |rs| ==> Order(rs[i].stage) <= Order(rs[k].stage)
    ensures Sort(rs) == rs
  {
    if rs != [] {
      var rest := rs[1..];
      assert forall i :: 0 <= i < |rest| ==> rest[i] == rs[i + 1];
      SortedIsKept(rest);
      assert rs == [rs[0]] + rest;
    }
  }

  // ---- the validator ---------------------------------------------------------------------------------

  ghost predicate Ordered(g: Graph, i: nat)
    requires i < |g.stages|
  {
    g.stages[i].order > 0 && (i > 0 ==> g.stages[i - 1].order < g.stages[i].order)
  }

  /** The references a stage must have, by name and in the order they are looked at. */
  function References(n: Node): seq<(string, string)> {
    [("input_ref", n.inputRef), ("output_ref", n.outputRef), ("handoff_ref", n.handoffRef),
     ("workflow_lineage_ref", Get(n.lineage, ""))]
  }

  predicate Referenced(n: Node) {
    n.inputRef != "" && n.outputRef != "" && n.handoffRef != "" && Get(n.lineage, "") != ""
  }

  /** The first stage hangs on the root, each later one on the output before it. */
  ghost predicate Hangs(g: Graph, i: nat)
    requires i < |g.stages|
  {
    var n := g.stages[i];
    if i == 0 then Get(n.root, "") == g.rootLineageRef else Get(n.upstream, "") == g.stages[i - 1].outputRef
  }

  ghost predicate StageOk(g: Graph, i: nat)
    requires i < |g.stages|
  {
    Ordered(g, i) && Referenced(g.stages[i]) && Hangs(g, i)
  }

  /** Orders rise, every reference is there, the first stage hangs on the root and each later one on the output
      before it, and the workflow has ended. */
  ghost predicate WellFormed(g: Graph) {
    && g.workflowId != "" && g.stages != [] && (forall i :: 0 <= i < |g.stages| ==> StageOk(g, i))
    && (g.completion.Some? || g.failure.Some?)
  }

  datatype Problem = MissingField(at: nat, field: string) | HandoffMismatch(at: nat) | StageOrderMismatch(at: nat)

  /** Reference `k` is the first one the stage lacks. */
  ghost predicate FirstMissing(n: Node, k: nat) {
    k < 4 && References(n)[k].1 == "" && forall m :: 0 <= m < k ==> References(n)[m].1 != ""
  }

  /** The problem is the one the graph has first: all stages before it are in order, and in its stage a wrong order
      comes before a missing reference and that before a broken link. */
  ghost predicate Found(g: Graph, p: Problem) {
    if g.workflowId == "" then p == MissingField(0, "workflow_id")
    else if g.stages == [] then p == MissingField(0, "stages")
    else
      && p.at <= |g.stages| && (forall i :: 0 <= i < p.at ==> StageOk(g, i))
      && if p.at == |g.stages| then p == MissingField(p.at, "final_completion_ref|final_failure_ref")
         else if !Ordered(g, p.at) then p.StageOrderMismatch?
         else if !p.MissingField? then p.HandoffMismatch? && Referenced(g.stages[p.at]) && !Hangs(g, p.at)
         else exists k: nat :: FirstMissing(g.stages[p.at], k) && p.field == References(g.stages[p.at])[k].0
  }

  method Validate(g: Graph) returns (r: Option<Problem>)
    ensures r.None? <==> WellFormed(g)
    ensures r.Some? ==> Found(g, r.value)
  {
    if g.workflowId == "" { return Some(MissingField(0, "workflow_id")); }
    if g.stages == [] { return Some(MissingField(0, "stages")); }
    var previousOutput: Option<string>, previousOrder: Option<nat> := None, None;
    for i := 0 to |g.stages|
      invariant forall k :: 0 <= k < i ==> StageOk(g, k)
      invariant i == 0 ==> previousOutput == None && previousOrder == None
      invariant i > 0 ==>
        previousOutput == Some(g.stages[i - 1].outputRef) && previousOrder == Some(g.stages[i - 1].order)
    {
      ghost var ok := StageOk(g, i);
      var stage := g.stages[i];
      if stage.order == 0 { return Some(StageOrderMismatch(i)); }
      if previousOrder.Some? && stage.order <= previousOrder.value { return Some(StageOrderMismatch(i)); }
      if stage.inputRef == "" {
        assert FirstMissing(stage, 0);
        return Some(MissingField(i, "input_ref"));
      }
      if stage.outputRef == "" {
        assert FirstMissing(stage, 1);
        return Some(MissingField(i, "output_ref"));
      }
      if stage.handoffRef == "" {
        assert FirstMissing(stage, 2);
        return Some(MissingField(i, "handoff_ref"));
      }
      if stage.lineage.None? || stage.lineage.value == "" {
        assert FirstMissing(stage, 3);
        return Some(MissingField(i, "workflow_lineage_ref"));
      }
      if previousOrder.None? {
        if Get(stage.root, "") != g.rootLineageRef { return Some(HandoffMismatch(i)); }
      } else {
        if Get(stage.upstream, "") != Get(previousOutput, "") { return Some(HandoffMismatch(i)); }
      }
      previousOutput := Some(stage.outputRef);
      previousOrder := Some(stage.order);
    }
    if g.completion.None? && g.failure.None? {
      return Some(MissingField(|g.stages|, "final_completion_ref|final_failure_ref"));
    }
    r := None;
  }

  // ---- finished jobs -----------------------------------------------------------------------------------

  /** Every recorded stage got the handoff fields it requires. */
  predicate HandoffsComplete(j: Job) {
    forall i :: 0 <= i < |j.records| ==> RequiredFields(j.records[i].stage) <= j.records[i].input.keys
  }

  /** Stages in order, each linked to the one before and each with an output. */
  ghost predicate Joined(id: string, rs: seq<StageRecord>) {
    rs != [] && forall i :: 0 <= i < |rs| ==>
      && Order(rs[i].stage) == i + 1 && Linked(id, rs, i)
      && rs[i].artifacts.output.Some? && rs[i].artifacts.output.value != ""
  }

  lemma SoundIsJoined(id: string, rs: seq<StageRecord>)
    requires Sound(id, rs) || (rs != [] && Chain(id, rs, |rs|))
    ensures Joined(id, rs)
  {
    hide Linked, Order, StageSuffix;
  }

  lemma RootIsFree()
    ensures Free("/workflow/lineage.jsonl") && Free("-input.json") && Free("-output.json")
  {}

  lemma LinkedNodeOk(id: string, c: string, g: Graph, rs: seq<StageRecord>, i: nat)
    requires "job-" <= id && c != "" && Joined(id, rs) && i < |rs| && g.stages == Nodes(rs, id, c)
    requires g.rootLineageRef == RootLineageRef(c)
    ensures StageOk(g, i)
  {
    var r := rs[i];
    assert Linked(id, rs, i);
    RootIsFree();
    CanonicalScoped(id, c, "/workflow/lineage.jsonl");
    assert InputRef(id, r.stage) != "" && HandoffRef(id, r.stage) != "" && LineageRef(id, r.stage) != "";
    hide StageSuffix, InputRef, HandoffRef, LineageRef, Canonicalize, Free, RequiredFields, Order;
    CanonicalNonempty(InputRef(id, r.stage), id, c);
    CanonicalNonempty(HandoffRef(id, r.stage), id, c);
    CanonicalNonempty(LineageRef(id, r.stage), id, c);
    CanonicalNonempty(r.artifacts.output.value, id, c);
    assert g.stages[i] == ToNode(r, id, c);
    if i > 0 { assert g.stages[i - 1] == ToNode(rs[i - 1], id, c); }
  }

  lemma JoinedPasses(j: Job)
    requires "job-" <= j.id && Joined(j.id, j.records) && (j.completionRef.Some? || j.failureRef.Some?)
    ensures WellFormed(WorkflowGraph(j)) && HandoffsComplete(j)
  {
    var g, c := WorkflowGraph(j), CanonicalId(j.fingerprint);
    SortedIsKept(j.records);
    hide Sort, StageOk, Joined, RootLineageRef, Canonicalize, ToNode;
    forall i | 0 <= i < |j.records| ensures StageOk(g, i) { LinkedNodeOk(j.id, c, g, j.records, i); }
    assert HandoffsComplete(j) by { JoinedHandoffs(j); }
  }

  lemma JoinedHandoffs(j: Job)
    requires Joined(j.id, j.records)
    ensures HandoffsComplete(j)
  {
    hide InputRef, HandoffRef, LineageRef, RootLineageRef, RequiredFields;
    forall i | 0 <= i < |j.records| ensures RequiredFields(j.records[i].stage) <= j.records[i].input.keys {
      assert Linked(j.id, j.records, i);
    }
  }

  /** In the graph of linked records every reference reads as the canonical job's own. */
  lemma NodesAreCanonical(j: Job, i: nat)
    requires "job-" <= j.id && Joined(j.id, j.records) && i < |j.records|
    ensures var g, c, s := WorkflowGraph(j), CanonicalId(j.fingerprint), j.records[i].stage;
      && |g.stages| == |j.records|
      && var n := g.stages[i];
         && n.order == i + 1 && n.inputRef == InputRef(c, s) && n.handoffRef == HandoffRef(c, s)
         && n.lineage == Some(LineageRef(c, s)) && n.root == Some(RootLineageRef(c))
  {
    var g, c, r := WorkflowGraph(j), CanonicalId(j.fingerprint), j.records[i];
    SortedIsKept(j.records);
    assert g.stages[i] == ToNode(r, j.id, c) && Linked(j.id, j.records, i);
    hide Sort;
    RootIsFree();
    KindsAreFree();
    StageSuffixIsFree(r.stage, "-input.json");
    StageSuffixIsFree(r.stage, "-handoff.json");
    StageSuffixIsFree(r.stage, "-lineage.json");
    hide Free, Canonicalize, StageSuffix, RequiredFields;
    CanonicalScoped(j.id, c, StageSuffix(r.stage, "-input.json"));
    CanonicalScoped(j.id, c, StageSuffix(r.stage, "-handoff.json"));
    CanonicalScoped(j.id, c, StageSuffix(r.stage, "-lineage.json"));
    CanonicalScoped(j.id, c, "/workflow/lineage.jsonl");
  }

  lemma KindsAreFree()
    ensures Free("-handoff.json") && Free("-lineage.json")
  {}

  lemma Ends(c: string, path: string, kind: string)
    requires |kind| >= 9
    ensures var r := Scoped(c, path + kind); r[|r| - 9] == kind[|kind| - 9]
  {}

  lemma InputIsNoOutput(c: string, s: Stage, t: Stage)
    ensures Scoped(c, StageSuffix(s, "-input.json")) != Scoped(c, StageSuffix(t, "-output.json"))
  {
    Ends(c, StagePath(s), "-input.json");
    Ends(c, StagePath(t), "-output.json");
    hide StagePath, Scoped;
  }

  lemma OrphanFails(j: Job)
    requires "job-" <= j.id && Orphaned(j.id, j.records)
    ensures !WellFormed(WorkflowGraph(j)) && !HandoffsComplete(j)
  {
    var g, c, rs := WorkflowGraph(j), CanonicalId(j.fingerprint), j.records;
    var n := |rs| - 1;
    SortedIsKept(rs);
    RootIsFree();
    StageSuffixIsFree(rs[n].stage, "-input.json");
    StageSuffixIsFree(rs[n - 1].stage, "-output.json");
    CanonicalScoped(j.id, c, StageSuffix(rs[n].stage, "-input.json"));
    CanonicalScoped(j.id, c, StageSuffix(rs[n - 1].stage, "-output.json"));
    InputIsNoOutput(c, rs[n].stage, rs[n - 1].stage);
    hide Sort, Canonicalize, StageSuffix, Free, RequiredFields, Order;
    assert g.stages[n] == ToNode(rs[n], j.id, c) && g.stages[n - 1] == ToNode(rs[n - 1], j.id, c);
    assert !StageOk(g, n);
  }

  /** For every run that has ended, the graph passes the validator exactly when no stage was filed without its
      handoff fields. */
  lemma LineageExactly(sub: Submission, now: int, es: seq<Event>)
    requires "job-" <= sub.id
    requires Run(sub, NewWorld(sub, now), es).pc == Ending(Ended)
    ensures var j := Run(sub, NewWorld(sub, now), es).job;
      && (WellFormed(WorkflowGraph(j)) <==> HandoffsComplete(j))
      && (j.state == Done ==> WellFormed(WorkflowGraph(j)))
  {
    StoppedMeansSettled(sub, now, es);
    var j := Run(sub, NewWorld(sub, now), es).job;
    hide Run, NewWorld, WellFormed, WorkflowGraph, HandoffsComplete, Sound, Orphaned, Chain, Joined;
    if Orphaned(j.id, j.records) && j.state != Done {
      OrphanFails(j);
    } else {
      SoundIsJoined(j.id, j.records);
      JoinedPasses(j);
    }
  }

  /** The graph of an ended run names the workflow and tells a completed one from a failed one, by references of the
      canonical job. */
  lemma EndedGraph(sub: Submission, now: int, es: seq<Event>)
    requires "job-" <= sub.id && Run(sub, NewWorld(sub, now), es).pc == Ending(Ended)
    ensures var j := Run(sub, NewWorld(sub, now), es).job;
      var g, c := WorkflowGraph(j), "job-" + j.fingerprint;
      && g.workflowId == "workflow-" + j.fingerprint && g.rootLineageRef == RootLineageRef(c)
      && g.completion == (if j.state == Done then Some(CompletionRef(c)) else None)
      && g.failure == (if j.state == Done then None else Some(FailureRef(c)))
  {
    StoppedMeansSettled(sub, now, es);
    var j := Run(sub, NewWorld(sub, now), es).job;
    EndRefsAreFree();
    CanonicalScoped(j.id, CanonicalId(j.fingerprint), "/workflow/completion.json");
    CanonicalScoped(j.id, CanonicalId(j.fingerprint), "/workflow/failure.json");
    hide Run, NewWorld, Sound, Orphaned, Chain, Canonicalize, Sort, Scoped;
  }

  lemma EndRefsAreFree()
    ensures Free("/workflow/completion.json") && Free("/workflow/failure.json")
  {}
}
