/** The worker node: executions keyed by idempotency key, driven by start, heartbeat, complete and cancel. */
module WorkerNode {
  import opened Text
  import opened Options

  datatype State = Running | Completed | Cancelled | TimedOut

  datatype Execution = Execution(
    id: string, assignment: string, worker: string, lease: string, key: string, state: State, startedAt: nat,
    lastHeartbeat: nat, completedAt: Option<nat>, output: Option<string>, cancellation: Option<string>)

  datatype Error =
    | EmptyAssignmentId | EmptyWorkerId | EmptyLeaseId | EmptyIdempotencyKey | IdempotencyConflict
    | UnknownExecutionId | LeaseMismatch | NotRunning

  datatype Request = Request(assignment: string, worker: string, lease: string, key: string)

  datatype Answer = Ok(execution: Execution, replay: bool) | Err(error: Error)

  /** `sequence` numbers the executions ever started. */
  datatype Node = Node(timeout: nat, sequence: nat, executions: map<string, Execution>, index: map<string, string>)

  function NewNode(timeout: nat): Node { Node(if timeout < 1 then 1 else timeout, 0, map[], map[]) }

  // ---- the operations ------------------------------------------------------------------------------

  function EmptyField(r: Request): Option<Error> {
    if Trim(r.assignment) == "" then Some(EmptyAssignmentId)
    else if Trim(r.worker) == "" then Some(EmptyWorkerId)
    else if Trim(r.lease) == "" then Some(EmptyLeaseId)
    else if Trim(r.key) == "" then Some(EmptyIdempotencyKey)
    else None
  }

  function ExecutionId(assignment: string, n: nat): string { assignment + "-exec" + "-" + ZeroPad(n, 6) }

  function Started(r: Request, n: nat, now: nat): Execution {
    Execution(ExecutionId(Trim(r.assignment), n), Trim(r.assignment), Trim(r.worker), Trim(r.lease), Trim(r.key),
      Running,
      now, now, None, None, None)
  }

  /** Whether a start makes a new execution: the key is looked up as given. */
  predicate StartsNew(w: Node, r: Request) { EmptyField(r).None? && r.key !in w.index }

  function Start(w: Node, r: Request, now: nat): Node {
    if !StartsNew(w, r) then w
    else
      var e := Started(r, w.sequence + 1, now);
      w.(sequence := w.sequence + 1, executions := w.executions[e.id := e], index := w.index[e.key := e.id])
  }

  function StartAnswer(w: Node, r: Request, now: nat): Answer
    requires Indexed(w)
  {
    if EmptyField(r).Some? then Err(EmptyField(r).value)
    else if r.key in w.index then
      var e := w.executions[w.index[r.key]];
      if e.assignment != r.assignment || e.worker != r.worker then Err(IdempotencyConflict) else Ok(e, true)
    else Ok(Started(r, w.sequence + 1, now), false)
  }

  /** Why a heartbeat or a completion is refused. */
  function Refusal(w: Node, id: string, lease: string): Option<Error> {
    if id !in w.executions then Some(UnknownExecutionId)
    else if w.executions[id].lease != lease then Some(LeaseMismatch)
    else if w.executions[id].state != Running then Some(NotRunning)
    else None
  }

  function Beaten(e: Execution, timeout: nat, now: nat): Execution {
    if now > e.lastHeartbeat && now - e.lastHeartbeat > timeout then e.(state := TimedOut, completedAt := Some(now))
    else e.(lastHeartbeat := now)
  }

  function Finished(e: Execution, output: string, now: nat): Execution {
    if e.cancellation.Some? then e.(state := Cancelled, completedAt := Some(now))
    else e.(state := Completed, completedAt := Some(now), output := Some(Trim(output)))
  }

  function Stopped(e: Execution, reason: string, now: nat): Execution {
    e.(cancellation := Some(Trim(reason)), state := if e.state == Running then Cancelled else e.state,
      completedAt := if e.state == Running then Some(now) else e.completedAt)
  }

  datatype Op =
    | StartOp(request: Request, now: nat)
    | HeartbeatOp(id: string, lease: string, now: nat)
    | CompleteOp(id: string, lease: string, output: string, now: nat)
    | CancelOp(id: string, reason: string, now: nat)

  function Step(w: Node, op: Op): Node {
    match op
    case StartOp(r, now) => Start(w, r, now)
    case HeartbeatOp(id, lease, now) =>
      if Refusal(w, id, lease).Some? then w
      else w.(executions := w.executions[id := Beaten(w.executions[id], w.timeout, now)])
    case CompleteOp(id, lease, output, now) =>
      if Refusal(w, id, lease).Some? then w
      else w.(executions := w.executions[id := Finished(w.executions[id], output, now)])
    case CancelOp(id, reason, now) =>
      if id !in w.executions then w else w.(executions := w.executions[id := Stopped(w.executions[id], reason, now)])
  }

  function Run(w: Node, ops: seq<Op>): Node {
    if ops == [] then w else Step(Run(w, ops[..|ops| - 1]), ops[|ops| - 1])
  }

  // ---- the invariant ---------------------------------------------------------------------------------

  /** Every index entry points to an execution with that key. */
  ghost predicate Indexed(w: Node) {
    forall k :: k in w.index ==> w.index[k] in w.executions && w.executions[w.index[k]].key == k && Trimmed(k)
  }

  /** An execution's fields agree with its state. */
  ghost predicate Coherent(e: Execution) {
    && (e.output.Some? <==> e.state == Completed)
    && (e.completedAt.Some? <==> e.state != Running)
    && (e.state == Running ==> e.cancellation.None?)
  }

  /** Number `n` was given to this execution. */
  ghost predicate NumberedBy(id: string, e: Execution, n: nat) { n > 0 && id == e.id == ExecutionId(e.assignment, n) }

  ghost predicate Numbered(w: Node) {
    forall id :: id in w.executions ==> exists n: nat :: n <= w.sequence && NumberedBy(id, w.executions[id], n)
  }

  ghost predicate Inv(w: Node) {
    Indexed(w) && Numbered(w) && forall id :: id in w.executions ==> Coherent(w.executions[id])
  }

  /** A new number makes a new id, whatever the assignments are. */
  lemma NextIdIsNew(w: Node, assignment: string)
    requires Numbered(w)
    ensures ExecutionId(assignment, w.sequence + 1) !in w.executions
  {
    var id := ExecutionId(assignment, w.sequence + 1);
    if id in w.executions {
      var n: nat :| n <= w.sequence && NumberedBy(id, w.executions[id], n);
      hide ZeroPad;
      NumberedIdsInjective(assignment + "-exec", w.sequence + 1, w.executions[id].assignment + "-exec", n, 6);
    }
  }

  lemma StartNumbers(w: Node, r: Request, now: nat)
    requires Numbered(w) && StartsNew(w, r)
    ensures Numbered(Start(w, r, now))
  {
    var e, v := Started(r, w.sequence + 1, now), Start(w, r, now);
    hide Trim, EmptyField, ExecutionId;
    assert NumberedBy(e.id, e, w.sequence + 1);
    forall id | id in v.executions ensures exists n: nat :: n <= v.sequence && NumberedBy(id, v.executions[id], n) {
      if id == e.id {
        assert NumberedBy(id, v.executions[id], v.sequence);
      } else {
        var n: nat :| n <= w.sequence && NumberedBy(id, w.executions[id], n);
        assert NumberedBy(id, v.executions[id], n);
      }
    }
  }

  lemma StartIndexes(w: Node, r: Request, now: nat)
    requires Indexed(w) && StartsNew(w, r) && ExecutionId(Trim(r.assignment), w.sequence + 1) !in w.executions
    ensures Indexed(Start(w, r, now))
  {
    TrimLaws(r.key);
    hide Trim, Trimmed, EmptyField, ExecutionId;
  }

  lemma StartKeeps(w: Node, r: Request, now: nat)
    requires Inv(w)
    ensures Inv(Start(w, r, now))
  {
    if StartsNew(w, r) {
      NextIdIsNew(w, Trim(r.assignment));
      StartNumbers(w, r, now);
      StartIndexes(w, r, now);
      hide Indexed, Numbered, Trim, EmptyField, ExecutionId;
    }
  }

  /** What an update of one execution may change. */
  ghost predicate Updates(e: Execution, f: Execution) {
    f.id == e.id && f.assignment == e.assignment && f.worker == e.worker && f.lease == e.lease && f.key == e.key
    && (e.state != Running ==> f.state == e.state && f.output == e.output && f.completedAt == e.completedAt)
  }

  lemma UpdateKeeps(w: Node, id: string, f: Execution)
    requires Inv(w) && id in w.executions && Updates(w.executions[id], f) && Coherent(f)
    ensures Inv(w.(executions := w.executions[id := f]))
  {
    hide ExecutionId, Trimmed;
    var v := w.(executions := w.executions[id := f]);
    forall k | k in v.executions ensures exists n: nat :: n <= v.sequence && NumberedBy(k, v.executions[k], n) {
      var n: nat :| n <= w.sequence && NumberedBy(k, w.executions[k], n);
      assert NumberedBy(k, v.executions[k], n);
    }
  }

  lemma UpdatesAreCoherent(e: Execution, timeout: nat, text: string, now: nat)
    requires Coherent(e)
    ensures e.state == Running ==> Updates(e, Beaten(e, timeout, now)) && Coherent(Beaten(e, timeout, now))
    ensures e.state == Running ==> Updates(e, Finished(e, text, now)) && Coherent(Finished(e, text, now))
    ensures Updates(e, Stopped(e, text, now)) && Coherent(Stopped(e, text, now))
    ensures e.state == Running ==> Finished(e, text, now).state == Completed
  {
    hide Trim;
  }

  lemma StepKeeps(w: Node, op: Op)
    requires Inv(w)
    ensures Inv(Step(w, op))
  {
    hide Beaten, Finished, Stopped, Coherent, Updates, Start, Indexed, Numbered;
    match op
    case StartOp(r, now) => StartKeeps(w, r, now);
    case HeartbeatOp(id, lease, now) =>
      if Refusal(w, id, lease).None? {
        UpdatesAreCoherent(w.executions[id], w.timeout, "", now);
        UpdateKeeps(w, id, Beaten(w.executions[id], w.timeout, now));
      }
    case CompleteOp(id, lease, output, now) =>
      if Refusal(w, id, lease).None? {
        UpdatesAreCoherent(w.executions[id], w.timeout, output, now);
        UpdateKeeps(w, id, Finished(w.executions[id], output, now));
      }
    case CancelOp(id, reason, now) =>
      if id in w.executions {
        UpdatesAreCoherent(w.executions[id], w.timeout, reason, now);
        UpdateKeeps(w, id, Stopped(w.executions[id], reason, now));
      }
  }

  /** Ids are given once, identities never change, and a state other than Running is final with everything it set. */
  ghost predicate Continues(w: Node, v: Node) {
    forall id :: id in w.executions ==> id in v.executions && Updates(w.executions[id], v.executions[id])
  }

  lemma StepContinues(w: Node, op: Op)
    requires Inv(w)
    ensures Continues(w, Step(w, op))
  {
    hide Beaten, Finished, Stopped, EmptyField, ExecutionId, Trim, Indexed;
    match op
    case StartOp(r, now) =>
      NextIdIsNew(w, Trim(r.assignment));
      hide Numbered;
    case HeartbeatOp(id, lease, now) =>
      if id in w.executions { UpdatesAreCoherent(w.executions[id], w.timeout, "", now); }
    case CompleteOp(id, lease, output, now) =>
      if id in w.executions { UpdatesAreCoherent(w.executions[id], w.timeout, output, now); }
    case CancelOp(id, reason, now) =>
      if id in w.executions { UpdatesAreCoherent(w.executions[id], w.timeout, reason, now); }
  }

  lemma ContinuesTransitive(u: Node, v: Node, w: Node)
    requires Continues(u, v) && Continues(v, w)
    ensures Continues(u, w)
  {}

  /** Over every run: the index stays sound, every record agrees with its state, ids are never reused, and terminal
      states are absorbing. */
  lemma {:induction false} RunKeeps(w: Node, ops: seq<Op>)
    requires Inv(w)
    ensures Inv(Run(w, ops)) && Continues(w, Run(w, ops))
  {
    if ops != [] {
      hide Step, Inv, Continues;
      var v := Run(w, ops[..|ops| - 1]);
      RunKeeps(w, ops[..|ops| - 1]);
      StepKeeps(v, ops[|ops| - 1]);
      StepContinues(v, ops[|ops| - 1]);
      ContinuesTransitive(w, v, Step(v, ops[|ops| - 1]));
    } else {
      hide Inv;
    }
  }

  // ---- the operations in terms of the fields ----------------------------------------------------------------

  /** A heartbeat of a running execution under its lease times it out exactly when more than the timeout has passed
      since the last one, and otherwise only moves the last one up. */
  lemma HeartbeatExactly(w: Node, id: string, now: nat)
    requires id in w.executions && w.executions[id].state == Running
    ensures var e, f := w.executions[id], Step(w, HeartbeatOp(id, w.executions[id].lease, now)).executions[id];
      if now > e.lastHeartbeat + w.timeout then f == e.(state := TimedOut, completedAt := Some(now))
      else f == e.(lastHeartbeat := now)
  {}

  /** A cancel notes the trimmed reason and ends an execution that is running, and no other. */
  lemma CancelExactly(w: Node, id: string, reason: string, now: nat)
    requires id in w.executions
    ensures var e, f := w.executions[id], Step(w, CancelOp(id, reason, now)).executions[id];
      && f.cancellation == Some(Trim(reason)) && f.output == e.output && f.lastHeartbeat == e.lastHeartbeat
      && (if e.state == Running then f.state == Cancelled && f.completedAt == Some(now)
          else f.state == e.state && f.completedAt == e.completedAt)
  {}

  /** A new node has nothing, and a timeout of at least a millisecond. */
  lemma NewNodeInFields(timeout: nat)
    ensures var w := NewNode(timeout);
      && w.executions == map[] && w.index == map[] && w.sequence == 0
      && w.timeout >= 1 && (timeout >= 1 ==> w.timeout == timeout)
  {}

  /** A new execution starts running now under trimmed names, with an id made of its assignment and number. */
  lemma StartInFields(w: Node, r: Request, now: nat)
    requires StartsNew(w, r)
    ensures var v := Start(w, r, now);
      var id := Trim(r.assignment) + "-exec-" + ZeroPad(w.sequence + 1, 6);
      && v.sequence == w.sequence + 1 && id in v.executions
      && v.executions[id] == Execution(id, Trim(r.assignment), Trim(r.worker), Trim(r.lease), Trim(r.key), Running, now,
           now, None, None, None)
      && Trim(r.key) in v.index && v.index[Trim(r.key)] == id
  {
    hide Trim, ZeroPad, EmptyField;
    assert ExecutionId(Trim(r.assignment), w.sequence + 1)
        == Trim(r.assignment) + "-exec-" + ZeroPad(w.sequence + 1, 6);
  }

  /** The first blank field of a request is the one reported. */
  lemma EmptyFieldExactly(r: Request)
    ensures EmptyField(r).None? <==>
      Trim(r.assignment) != "" && Trim(r.worker) != "" && Trim(r.lease) != "" && Trim(r.key) != ""
    ensures EmptyField(r) == Some(EmptyAssignmentId) <==> Trim(r.assignment) == ""
    ensures EmptyField(r) == Some(EmptyWorkerId) <==> Trim(r.assignment) != "" && Trim(r.worker) == ""
    ensures EmptyField(r) == Some(EmptyLeaseId) ==> Trim(r.worker) != "" && Trim(r.lease) == ""
    ensures EmptyField(r) == Some(EmptyIdempotencyKey) ==> Trim(r.lease) != "" && Trim(r.key) == ""
  {
    hide Trim;
  }

  // ---- one execution a key -----------------------------------------------------------------------------

  /** The execution is the one its key leads to. */
  ghost predicate Leads(w: Node, id: string)
    requires id in w.executions
  {
    w.executions[id].key in w.index && w.index[w.executions[id].key] == id
  }

  /** The index names the only execution of each key. */
  ghost predicate OnePerKey(w: Node) { forall id :: id in w.executions ==> Leads(w, id) }

  predicate StartsKey(w: Node, op: Op, key: string) {
    op.StartOp? && StartsNew(w, op.request) && Trim(op.request.key) == key
  }

  /** A new execution of a key that has one: the lookup missed because the key was not given trimmed. */
  predicate StartsAgain(w: Node, op: Op, key: string) { StartsKey(w, op, key) && key in w.index }

  /** Some call of the run starts the key again. */
  ghost predicate StartedAgain(w: Node, ops: seq<Op>, key: string) {
    exists i :: 0 <= i < |ops| && StartsAgain(Run(w, ops[..i]), ops[i], key)
  }

  lemma StartedAgainSplits(w: Node, ops: seq<Op>, key: string)
    requires ops != []
    ensures var most := ops[..|ops| - 1];
      StartedAgain(w, ops, key) <==> StartedAgain(w, most, key) || StartsAgain(Run(w, most), ops[|ops| - 1], key)
  {
    hide Run, StartsAgain;
    var most := ops[..|ops| - 1];
    assert forall i :: 0 <= i < |most| ==> most[..i] == ops[..i] && most[i] == ops[i];
  }

  /** Only a new start of a key changes where it leads, and then to an id never given before. */
  lemma StepIndex(w: Node, op: Op, key: string)
    requires Inv(w)
    ensures var v := Step(w, op);
      if StartsKey(w, op, key) then key in v.index && v.index[key] !in w.executions
      else (key in v.index <==> key in w.index) && (key in w.index ==> v.index[key] == w.index[key])
  {
    hide Beaten, Finished, Stopped, EmptyField, ExecutionId, Trim, Indexed, Coherent;
    if op.StartOp? {
      NextIdIsNew(w, Trim(op.request.assignment));
      hide Numbered;
    }
  }

  lemma StepLeads(w: Node, op: Op, id: string)
    requires Inv(w) && id in w.executions
    ensures id in Step(w, op).executions
    ensures Leads(Step(w, op), id) <==> Leads(w, id) && !StartsAgain(w, op, w.executions[id].key)
  {
    StepContinues(w, op);
    StepIndex(w, op, w.executions[id].key);
    hide Step, Inv, StartsKey;
  }

  lemma NewLeads(w: Node, op: Op, id: string)
    requires id in Step(w, op).executions && id !in w.executions
    ensures Leads(Step(w, op), id)
  {
    hide Beaten, Finished, Stopped, EmptyField, ExecutionId, Trim;
  }

  lemma StepOnePerKey(w: Node, op: Op)
    requires Inv(w)
    ensures OnePerKey(Step(w, op)) <==> OnePerKey(w) && forall key :: !StartsAgain(w, op, key)
  {
    var v := Step(w, op);
    forall id | id in w.executions
      ensures id in v.executions
      ensures Leads(v, id) <==> Leads(w, id) && !StartsAgain(w, op, w.executions[id].key)
    {
      StepLeads(w, op, id);
    }
    forall id | id in v.executions && id !in w.executions ensures Leads(v, id) { NewLeads(w, op, id); }
    forall key | StartsAgain(w, op, key) ensures key in w.index && w.index[key] in w.executions
      ensures w.executions[w.index[key]].key == key
    {}
    hide Step, Inv, StartsAgain, Leads;
  }

  /** No key ever gets a second execution exactly when no call starts a key again. */
  lemma {:induction false} OnePerKeyExactly(timeout: nat, ops: seq<Op>)
    ensures OnePerKey(Run(NewNode(timeout), ops)) <==> forall key :: !StartedAgain(NewNode(timeout), ops, key)
  {
    var w := NewNode(timeout);
    if ops != [] {
      var most, op := ops[..|ops| - 1], ops[|ops| - 1];
      OnePerKeyExactly(timeout, most);
      RunKeeps(w, most);
      forall key
        ensures StartedAgain(w, ops, key) <==> StartedAgain(w, most, key) || StartsAgain(Run(w, most), op, key)
      {
        StartedAgainSplits(w, ops, key);
      }
      hide Step, Inv, OnePerKey, NewNode, StartedAgain, StartsAgain, Continues;
      StepOnePerKey(Run(w, most), op);
    }
  }

  ghost predicate KeysTrimmed(ops: seq<Op>) {
    forall i :: 0 <= i < |ops| && ops[i].StartOp? ==> Trimmed(ops[i].request.key)
  }

  /** In particular when keys arrive trimmed. */
  lemma KeysAreIdempotent(timeout: nat, ops: seq<Op>)
    requires KeysTrimmed(ops)
    ensures OnePerKey(Run(NewNode(timeout), ops))
  {
    OnePerKeyExactly(timeout, ops);
    forall key ensures !StartedAgain(NewNode(timeout), ops, key) {
      forall i | 0 <= i < |ops| ensures !StartsAgain(Run(NewNode(timeout), ops[..i]), ops[i], key) {
        if ops[i].StartOp? { TrimLaws(ops[i].request.key); }
        hide Run, NewNode, Trim, Trimmed, EmptyField;
      }
    }
  }

  /** Any execution's key can be started again: blank space before it hides it from the lookup. */
  lemma BlankStartsAgain(w: Node, key: string, r: Request, now: nat)
    requires Inv(w) && key in w.index && key != "" && EmptyField(r).None? && r.key == " " + key
    ensures StartsAgain(w, StartOp(r, now), key)
  {
    assert r.key[0] == ' ' && r.key[1..] == key;
    TrimLaws(key);
    assert TrimStart(r.key) == TrimStart(key);
    assert !Trimmed(r.key);
  }

  // ---- repeating a start ---------------------------------------------------------------------------------

  lemma {:induction false} KeyStays(w: Node, ops: seq<Op>, key: string)
    requires Inv(w) && key in w.index
    ensures var v := Run(w, ops);
      Inv(v) && key in v.index && (v.index[key] == w.index[key] <==> !StartedAgain(w, ops, key))
  {
    RunKeeps(w, ops);
    if ops != [] {
      var most, op := ops[..|ops| - 1], ops[|ops| - 1];
      KeyStays(w, most, key);
      StartedAgainSplits(w, ops, key);
      RunKeeps(w, most);
      assert w.index[key] in w.executions;
      StepIndex(Run(w, most), op, key);
      hide Step, Inv, StartedAgain, StartsKey, Updates;
    }
  }

  /** A start that made an execution, repeated after any calls, returns that execution exactly when the key, the
      assignment and the worker were given trimmed and no call in between started the key again. */
  lemma ReplayExactly(w: Node, r: Request, now: nat, ops: seq<Op>, later: nat)
    requires Inv(w) && StartsNew(w, r)
    ensures var v, id := Start(w, r, now), StartAnswer(w, r, now).execution.id;
      var u := Run(v, ops);
      && Inv(u) && id in u.executions
      && (StartAnswer(u, r, later) == Ok(u.executions[id], true) <==>
            Trimmed(r.key) && Trimmed(r.assignment) && Trimmed(r.worker) && !StartedAgain(v, ops, r.key))
  {
    var v, e := Start(w, r, now), Started(r, w.sequence + 1, now);
    StartKeeps(w, r, now);
    RunKeeps(v, ops);
    KeyStays(v, ops, e.key);
    hide Run, Inv, Trim, Trimmed, ExecutionId, StartedAgain, EmptyField, StartAnswer;
    assert StartAnswer(w, r, now).execution.id == e.id by { NewAnswer(w, r, now); }
    assert e.id in v.executions && v.executions[e.id] == e;
    assert e.key in v.index && v.index[e.key] == e.id;
    RepeatedAnswer(Run(v, ops), r, e.id, later);
    TrimLaws(r.key);
  }

  lemma NewAnswer(w: Node, r: Request, now: nat)
    requires Inv(w) && StartsNew(w, r)
    ensures StartAnswer(w, r, now) == Ok(Started(r, w.sequence + 1, now), false)
  {}

  /** What a start is answered in a state that has an execution for its identifiers. */
  lemma RepeatedAnswer(u: Node, r: Request, id: string, later: nat)
    requires Inv(u) && EmptyField(r).None? && id in u.executions && Trim(r.key) in u.index
    requires u.executions[id].assignment == Trim(r.assignment) && u.executions[id].worker == Trim(r.worker)
    ensures StartAnswer(u, r, later) == Ok(u.executions[id], true) <==>
      Trimmed(r.key) && Trimmed(r.assignment) && Trimmed(r.worker) && u.index[Trim(r.key)] == id
  {
    TrimLaws(r.key);
    TrimLaws(r.assignment);
    TrimLaws(r.worker);
    assert u.index[Trim(r.key)] in u.executions;
    if u.index[Trim(r.key)] != id { IdsDiffer(u, id, u.index[Trim(r.key)]); }
    assert r.key in u.index ==> Trimmed(r.key);
    hide Trim, Trimmed, EmptyField, Inv, Started;
  }

  lemma IdsDiffer(w: Node, a: string, b: string)
    requires Numbered(w) && a in w.executions && b in w.executions && a != b
    ensures w.executions[a] != w.executions[b]
  {
    hide ExecutionId;
  }

  /** The lease an execution was started under is accepted for it, after any calls, exactly when it was given
      trimmed. */
  lemma LeaseHonouredExactly(w: Node, r: Request, now: nat, ops: seq<Op>)
    requires Inv(w) && StartsNew(w, r)
    ensures var u, id := Run(Start(w, r, now), ops), StartAnswer(w, r, now).execution.id;
      Refusal(u, id, r.lease) in {None, Some(NotRunning)} <==> Trimmed(r.lease)
  {
    var v, e := Start(w, r, now), Started(r, w.sequence + 1, now);
    StartKeeps(w, r, now);
    RunKeeps(v, ops);
    TrimLaws(r.lease);
    hide Run, Trim, Trimmed, ExecutionId, EmptyField, Inv;
    assert e.id in v.executions && v.executions[e.id] == e;
  }

  // ---- the service -----------------------------------------------------------------------------------------

  class WorkerNodeService {
    const timeout: nat
    var sequence: nat
    var executions: map<string, Execution>
    var index: map<string, string>

    ghost function Contents(): Node
      reads this
    {
      Node(timeout, sequence, executions, index)
    }

    constructor (heartbeatTimeout: nat)
      ensures Contents() == NewNode(heartbeatTimeout) && Inv(Contents())
    {
      timeout := if heartbeatTimeout < 1 then 1 else heartbeatTimeout;
      sequence, executions, index := 0, map[], map[];
    }

    method Begin(r: Request, now: nat) returns (a: Answer)
      requires Inv(Contents())
      modifies this
      ensures a == StartAnswer(old(Contents()), r, now)
      ensures Contents() == Step(old(Contents()), StartOp(r, now)) && Inv(Contents())
    {
      StepKeeps(Contents(), StartOp(r, now));
      hide Trim, ExecutionId, Numbered, Coherent;
      var empty := EmptyField(r);
      if empty.Some? { return Err(empty.value); }
      if r.key in index {
        var existing := executions[index[r.key]];
        if existing.assignment != r.assignment || existing.worker != r.worker { return Err(IdempotencyConflict); }
        return Ok(existing, true);
      }
      sequence := sequence + 1;
      var e := Execution(ExecutionId(Trim(r.assignment), sequence), Trim(r.assignment), Trim(r.worker), Trim(r.lease),
        Trim(r.key), Running, now, now, None, None, None);
      index := index[e.key := e.id];
      executions := executions[e.id := e];
      a := Ok(e, false);
    }

    method Heartbeat(id: string, lease: string, now: nat) returns (a: Answer)
      requires Inv(Contents())
      modifies this`executions
      ensures Contents() == Step(old(Contents()), HeartbeatOp(id, lease, now)) && Inv(Contents())
      ensures var refusal := Refusal(old(Contents()), id, lease);
        if refusal.Some? then a == Err(refusal.value) else a == Ok(executions[id], false)
    {
      StepKeeps(Contents(), HeartbeatOp(id, lease, now));
      hide Indexed, Numbered, Coherent;
      if id !in executions { return Err(UnknownExecutionId); }
      var e := executions[id];
      if e.lease != lease { return Err(LeaseMismatch); }
      if e.state != Running { return Err(NotRunning); }
      if now > e.lastHeartbeat && now - e.lastHeartbeat > timeout {
        e := e.(state := TimedOut, completedAt := Some(now));
      } else {
        e := e.(lastHeartbeat := now);
      }
      executions := executions[id := e];
      a := Ok(e, false);
    }

    /** The branch for a cancelled execution cannot be reached: a running execution has no cancellation. */
    method Complete(id: string, lease: string, output: string, now: nat) returns (a: Answer)
      requires Inv(Contents())
      modifies this`executions
      ensures Contents() == Step(old(Contents()), CompleteOp(id, lease, output, now)) && Inv(Contents())
      ensures var refusal := Refusal(old(Contents()), id, lease);
        if refusal.Some? then a == Err(refusal.value)
        else
          && a == Ok(executions[id], false) && a.execution.state == Completed
          && a.execution.output == Some(Trim(output))
    {
      StepKeeps(Contents(), CompleteOp(id, lease, output, now));
      hide Indexed, Numbered, Trim;
      if id !in executions { return Err(UnknownExecutionId); }
      var e := executions[id];
      if e.lease != lease { return Err(LeaseMismatch); }
      if e.state != Running { return Err(NotRunning); }
      assert Coherent(e);
      e := e.(state := Completed, completedAt := Some(now), output := Some(Trim(output)));
      executions := executions[id := e];
      a := Ok(e, false);
    }

    method Cancel(id: string, reason: string, now: nat) returns (a: Answer)
      requires Inv(Contents())
      modifies this`executions
      ensures Contents() == Step(old(Contents()), CancelOp(id, reason, now)) && Inv(Contents())
      ensures if id !in old(executions) then a == Err(UnknownExecutionId) else a == Ok(executions[id], false)
    {
      StepKeeps(Contents(), CancelOp(id, reason, now));
      hide Indexed, Numbered, Trim, Coherent;
      if id !in executions { return Err(UnknownExecutionId); }
      var e := executions[id].(cancellation := Some(Trim(reason)));
      if e.state == Running { e := e.(state := Cancelled, completedAt := Some(now)); }
      executions := executions[id := e];
      a := Ok(e, false);
    }
  }
}
