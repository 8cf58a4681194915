/** The canonical job specification text whose digest serves as an idempotency key: equal texts come only from
    requests that agree on everything the text shows. */
module JobSpec {
  import opened Options
  import opened CanonicalJson
  import Sha256

  // ---- requests ------------------------------------------------------------------------------

  datatype Topology = Topology(
    clusterId: string, partitionCount: int, partitionIds: seq<string>, preferredWorkers: seq<string>)

  datatype Lineage = Lineage(executionRef: string, parentRef: string, policySnapshotRef: string, rootRef: string)

  datatype Observability = Observability(emitMetrics: bool, traceId: string, traceRef: string, traceparent: string)

  datatype Security = Security(
    failClosed: bool, policySnapshotRef: string, projectId: string, serviceIdentity: string, tenantId: string)

  datatype Workload = Workload(
    kind: string, executionProfile: string, replayable: bool, lineage: Lineage, observability: Observability,
    security: Security, backendTarget: string, topology: Option<Topology>)

  datatype Program = EigenLangSource(source: string, entrypoint: string, sha256: string)

  datatype Request = Request(
    jobspecApiVersion: string, name: string, program: Program, target: string, priority: int,
    compilerOptions: map<string, string>, metadata: map<string, string>, dependencies: seq<string>,
    workload: Workload)

  // ---- text as a list of parts ---------------------------------------------------------------

  /** A number is rendered with the comma that follows it. */
  datatype Part =
    | Lit(text: string)
    | Str(s: string)
    | Num(n: int)
    | Flag(b: bool)
    | List(values: seq<string>)
    | Table(m: map<string, string>)

  ghost function PartText(p: Part): string {
    match p
    case Lit(t) => t
    case Str(s) => Quoted(s)
    case Num(n) => Signed(n) + ","
    case Flag(b) => Bool(b)
    case List(v) => ListText(v)
    case Table(m) => MapText(m)
  }

  ghost function Text(parts: seq<Part>): string {
    if parts == [] then "" else PartText(parts[0]) + Text(parts[1..])
  }

  ghost predicate SameShape(a: Part, b: Part) {
    match a
    case Lit(t) => b == a
    case Str(_) => b.Str?
    case Num(_) => b.Num?
    case Flag(_) => b.Flag?
    case List(_) => b.List?
    case Table(_) => b.Table?
  }

  ghost predicate SameTemplate(p: seq<Part>, q: seq<Part>) {
    |p| == |q| && forall i :: 0 <= i < |p| ==> SameShape(p[i], q[i])
  }

  lemma PartDelimited(a: Part, b: Part, x: string, y: string)
    requires SameShape(a, b) && PartText(a) + x == PartText(b) + y
    ensures a == b && x == y
  {
    hide Quoted, Signed, Bool, ListText, MapText;
    match a
    case Lit(t) => assert x == (t + x)[|t|..] && y == (t + y)[|t|..];
    case Str(s) => QuotedDelimited(s, b.s, x, y);
    case Num(n) => NumberDelimited(n, b.n, x, y);
    case Flag(f) => BoolDelimited(f, b.b, x, y);
    case List(v) => ListDelimited(v, b.values, x, y);
    case Table(m) => MapDelimited(m, b.m, x, y);
  }

  lemma TextStep(p: seq<Part>, x: string)
    requires p != []
    ensures Text(p) + x == PartText(p[0]) + (Text(p[1..]) + x)
  {}

  /** Two fillings of one template that render alike, whatever follows, are the same filling. */
  lemma {:induction false} TemplateDelimited(p: seq<Part>, q: seq<Part>, x: string, y: string)
    requires SameTemplate(p, q) && Text(p) + x == Text(q) + y
    ensures p == q && x == y
  {
    if p == [] {
      assert Text(p) + x == x && Text(q) + y == y;
    } else {
      TextStep(p, x);
      TextStep(q, y);
      hide PartText, SameShape;
      PartDelimited(p[0], q[0], Text(p[1..]) + x, Text(q[1..]) + y);
      TemplateDelimited(p[1..], q[1..], x, y);
      assert p == [p[0]] + p[1..] && q == [q[0]] + q[1..];
    }
  }

  /** The name of a field, after what stands before it. */
  function Name(before: string, name: string): Part { Lit(before + ("\"" + name + "\":")) }

  // ---- the workload text ---------------------------------------------------------------------

  function LineageParts(l: Lineage, backendTarget: string): seq<Part> {
    [Name("{\"artifact_lineage\":{", "execution_ref"), Str(l.executionRef),
     Name(",", "parent_ref"), Str(l.parentRef),
     Name(",", "policy_snapshot_ref"), Str(l.policySnapshotRef),
     Name(",", "root_ref"), Str(l.rootRef),
     Name("},", "backend_target"), Str(backendTarget)]
  }

  function TopologyParts(t: Topology): seq<Part> {
    [Name(",\"topology\":{", "cluster_id"), Str(t.clusterId),
     Name(",", "partition_count"), Num(t.partitionCount),
     Name("", "partition_ids"), List(t.partitionIds),
     Name(",", "preferred_workers"), List(t.preferredWorkers), Lit("}")]
  }

  ghost function TopologyText(t: Option<Topology>): string {
    if t.None? then "" else Text(TopologyParts(t.value))
  }

  function ProfileParts(w: Workload): seq<Part> {
    [Name(",", "execution_profile"), Str(w.executionProfile),
     Name(",", "kind"), Str(w.kind),
     Name(",\"observability\":{", "emit_metrics"), Flag(w.observability.emitMetrics),
     Name(",", "trace_id"), Str(w.observability.traceId),
     Name(",", "trace_ref"), Str(w.observability.traceRef),
     Name(",", "traceparent"), Str(w.observability.traceparent)]
  }

  function SecurityParts(replayable: bool, s: Security): seq<Part> {
    [Name("},", "replayable"), Flag(replayable),
     Name(",\"security\":{", "fail_closed"), Flag(s.failClosed),
     Name(",", "policy_snapshot_ref"), Str(s.policySnapshotRef),
     Name(",", "project_id"), Str(s.projectId),
     Name(",", "service_identity"), Str(s.serviceIdentity),
     Name(",", "tenant_id"), Str(s.tenantId), Lit("}}")]
  }

  ghost function WorkloadText(w: Workload): string {
    Text(LineageParts(w.lineage, w.backendTarget)) + (TopologyText(w.topology)
      + (Text(ProfileParts(w)) + Text(SecurityParts(w.replayable, w.security))))
  }

  lemma LineageDelimited(l: Lineage, s: string, k: Lineage, t: string, x: string, y: string)
    requires Text(LineageParts(l, s)) + x == Text(LineageParts(k, t)) + y
    ensures l == k && s == t && x == y
  {
    var p, q := LineageParts(l, s), LineageParts(k, t);
    hide Text;
    assert SameTemplate(p, q);
    TemplateDelimited(p, q, x, y);
    assert p[1] == q[1] && p[3] == q[3] && p[5] == q[5] && p[7] == q[7] && p[9] == q[9];
  }

  lemma TopologyDelimited(a: Topology, b: Topology, x: string, y: string)
    requires Text(TopologyParts(a)) + x == Text(TopologyParts(b)) + y
    ensures a == b && x == y
  {
    var p, q := TopologyParts(a), TopologyParts(b);
    hide Text;
    assert SameTemplate(p, q);
    TemplateDelimited(p, q, x, y);
    assert p[1] == q[1] && p[3] == q[3] && p[5] == q[5] && p[7] == q[7];
  }

  lemma ProfileDelimited(a: Workload, b: Workload, x: string, y: string)
    requires Text(ProfileParts(a)) + x == Text(ProfileParts(b)) + y
    ensures a.executionProfile == b.executionProfile && a.kind == b.kind && a.observability == b.observability && x == y
  {
    var p, q := ProfileParts(a), ProfileParts(b);
    hide Text;
    assert SameTemplate(p, q);
    TemplateDelimited(p, q, x, y);
    assert p[1] == q[1] && p[3] == q[3] && p[5] == q[5] && p[7] == q[7] && p[9] == q[9] && p[11] == q[11];
  }

  lemma SecurityDelimited(f: bool, a: Security, g: bool, b: Security, x: string, y: string)
    requires Text(SecurityParts(f, a)) + x == Text(SecurityParts(g, b)) + y
    ensures f == g && a == b && x == y
  {
    var p, q := SecurityParts(f, a), SecurityParts(g, b);
    hide Text;
    assert SameTemplate(p, q);
    TemplateDelimited(p, q, x, y);
    assert p[1] == q[1] && p[3] == q[3] && p[5] == q[5] && p[7] == q[7] && p[9] == q[9] && p[11] == q[11];
  }

  /** The third character of what follows the back-end target tells whether a topology was rendered. */
  lemma TopologyMark(t: Option<Topology>, w: Workload, x: string)
    ensures |TopologyText(t) + (Text(ProfileParts(w)) + x)| > 2
    ensures (TopologyText(t) + (Text(ProfileParts(w)) + x))[2] == 't' <==> t.Some?
  {
    var m := ProfileParts(w);
    assert Text(m) == PartText(m[0]) + Text(m[1..]) && PartText(m[0])[2] == 'e';
    assert Text(m)[2] == 'e';
    if t.Some? {
      var p := TopologyParts(t.value);
      assert Text(p) == PartText(p[0]) + Text(p[1..]) && PartText(p[0])[2] == 't';
      assert Text(p)[2] == 't';
    } else {
      assert TopologyText(t) + (Text(m) + x) == Text(m) + x;
    }
  }

  lemma OptionalTopologyDelimited(a: Workload, b: Workload, x: string, y: string)
    requires TopologyText(a.topology) + (Text(ProfileParts(a)) + x)
      == TopologyText(b.topology) + (Text(ProfileParts(b)) + y)
    ensures a.topology == b.topology && Text(ProfileParts(a)) + x == Text(ProfileParts(b)) + y
  {
    TopologyMark(a.topology, a, x);
    TopologyMark(b.topology, b, y);
    var u, v := Text(ProfileParts(a)) + x, Text(ProfileParts(b)) + y;
    hide Text, TopologyParts, ProfileParts;
    if a.topology.Some? {
      TopologyDelimited(a.topology.value, b.topology.value, u, v);
    } else {
      assert "" + u == u && "" + v == v;
    }
  }

  lemma WorkloadReads(w: Workload, x: string)
    ensures WorkloadText(w) + x == Text(LineageParts(w.lineage, w.backendTarget)) + (TopologyText(w.topology)
      + (Text(ProfileParts(w)) + (Text(SecurityParts(w.replayable, w.security)) + x)))
  {
    hide Text, LineageParts, TopologyParts, ProfileParts, SecurityParts, TopologyText;
  }

  /** The workload text ends where it says and determines the whole workload, topology or not. */
  lemma WorkloadDelimited(a: Workload, b: Workload, x: string, y: string)
    requires WorkloadText(a) + x == WorkloadText(b) + y
    ensures a == b && x == y
  {
    WorkloadReads(a, x);
    WorkloadReads(b, y);
    hide *;
    var sa, sb := Text(SecurityParts(a.replayable, a.security)) + x, Text(SecurityParts(b.replayable, b.security)) + y;
    var ta := TopologyText(a.topology) + (Text(ProfileParts(a)) + sa);
    var tb := TopologyText(b.topology) + (Text(ProfileParts(b)) + sb);
    LineageDelimited(a.lineage, a.backendTarget, b.lineage, b.backendTarget, ta, tb);
    OptionalTopologyDelimited(a, b, sa, sb);
    ProfileDelimited(a, b, sa, sb);
    SecurityDelimited(a.replayable, a.security, b.replayable, b.security, x, y);
  }

  // ---- the whole document ----------------------------------------------------------------------

  const LEGACY_API_VERSION := "eigen.os/v0.1"

  function Migration(version: string): string {
    if version == LEGACY_API_VERSION then "v0.1-inline-and-program_path" else "none"
  }

  function VersionParts(version: string): seq<Part> {
    [Name("{\"apiVersion\":\"eigen.os/v1\",\"compatibility\":{", "input_apiVersion"), Str(version)]
  }

  function Preamble(version: string): string {
    ",\"migration\":\"" + Migration(version)
    + "\"},\"contract\":\"jobspec.normalized\",\"kind\":\"QuantumJob\","
    + "\"metadata\":{\"annotations\":{},\"labels\":{},"
  }

  function SpecParts(version: string, name: string, r: Request): seq<Part> {
    [Name(Preamble(version), "name"), Str(name),
     Name("},\"observability\":{},\"scheduling\":{},\"security\":{},\"spec\":{", "compiler_options"),
     Table(r.compilerOptions),
     Name(",", "dependencies"), List(r.dependencies),
     Name(",", "metadata"), Table(Shown(r.metadata)),
     Name(",", "priority"), Num(r.priority)]
  }

  function ProgramParts(p: Program, target: string): seq<Part> {
    [Name("\"program\":{", "entrypoint"), Str(p.entrypoint),
     Name(",", "sha256"), Str(p.sha256),
     Name(",", "source"), Str(p.source),
     Name("},", "target"), Str(target), Name(",", "workload")]
  }

  const CLOSING := "},\"version\":\"1.0.0\"}"

  /** The metadata that is rendered: all of it but the raw job file. */
  function Shown(metadata: map<string, string>): map<string, string> { metadata - {"jobspec_yaml"} }

  ghost function Normalized(r: Request, version: string): string {
    Text(VersionParts(version)) + (Text(SpecParts(version, r.name, r))
      + (Text(ProgramParts(r.program, r.target)) + (WorkloadText(r.workload) + CLOSING)))
  }

  /** What the text keeps of a request: everything but the raw job file and the request's own version field. */
  function Visible(r: Request): Request { r.(jobspecApiVersion := "", metadata := Shown(r.metadata)) }

  lemma VersionDelimited(v: string, w: string, x: string, y: string)
    requires Text(VersionParts(v)) + x == Text(VersionParts(w)) + y
    ensures v == w && x == y
  {
    var p, q := VersionParts(v), VersionParts(w);
    hide Text;
    assert SameTemplate(p, q);
    TemplateDelimited(p, q, x, y);
    assert p[1] == q[1];
  }

  lemma SpecDelimited(v: string, a: Request, b: Request, x: string, y: string)
    requires Text(SpecParts(v, a.name, a)) + x == Text(SpecParts(v, b.name, b)) + y
    ensures a.name == b.name && a.compilerOptions == b.compilerOptions && a.dependencies == b.dependencies
    ensures Shown(a.metadata) == Shown(b.metadata) && a.priority == b.priority && x == y
  {
    var p, q := SpecParts(v, a.name, a), SpecParts(v, b.name, b);
    hide Text, Shown, Preamble;
    assert SameTemplate(p, q);
    TemplateDelimited(p, q, x, y);
    assert p[1] == q[1] && p[3] == q[3] && p[5] == q[5] && p[7] == q[7] && p[9] == q[9];
  }

  lemma ProgramDelimited(a: Program, s: string, b: Program, t: string, x: string, y: string)
    requires Text(ProgramParts(a, s)) + x == Text(ProgramParts(b, t)) + y
    ensures a == b && s == t && x == y
  {
    var p, q := ProgramParts(a, s), ProgramParts(b, t);
    hide Text;
    assert SameTemplate(p, q);
    TemplateDelimited(p, q, x, y);
    assert p[1] == q[1] && p[3] == q[3] && p[5] == q[5] && p[7] == q[7];
  }

  lemma NormalizedDetermines(a: Request, v: string, b: Request, w: string)
    requires Normalized(a, v) == Normalized(b, w)
    ensures v == w && Visible(a) == Visible(b)
  {
    hide Text, VersionParts, SpecParts, ProgramParts, WorkloadText, Shown;
    var wa, wb := WorkloadText(a.workload) + CLOSING, WorkloadText(b.workload) + CLOSING;
    var pa, pb := Text(ProgramParts(a.program, a.target)) + wa, Text(ProgramParts(b.program, b.target)) + wb;
    var sa, sb := Text(SpecParts(v, a.name, a)) + pa, Text(SpecParts(w, b.name, b)) + pb;
    VersionDelimited(v, w, sa, sb);
    SpecDelimited(v, a, b, pa, pb);
    ProgramDelimited(a.program, a.target, b.program, b.target, wa, wb);
    WorkloadDelimited(a.workload, b.workload, CLOSING, CLOSING);
  }

  lemma VisibleDetermines(a: Request, b: Request, v: string)
    requires Visible(a) == Visible(b)
    ensures Normalized(a, v) == Normalized(b, v)
  {
    hide Text, VersionParts, ProgramParts, WorkloadText, Shown;
    assert SpecParts(v, a.name, a) == SpecParts(v, b.name, b);
  }

  function Wrapped(digest: string, normalized: string): string {
    "{\"digest\":\"" + digest + "\",\"normalized\":" + normalized + "}"
  }

  /** The document sent to the server: the digest of the normalized text, then that text. */
  ghost function Canonical(r: Request, version: string, utf8: string -> seq<Sha256.byte>): string {
    Wrapped(Sha256.DigestHex(utf8(Normalized(r, version))), Normalized(r, version))
  }

  lemma Unwrap(d: string, s: string, e: string, t: string)
    requires |d| == |e| && Wrapped(d, s) == Wrapped(e, t)
    ensures s == t
  {
    var u, v := Wrapped(d, s), Wrapped(e, t);
    assert s == u[|u| - 1 - |s|..|u| - 1] && t == v[|v| - 1 - |t|..|v| - 1];
  }

  /** Two requests have the same canonical document exactly when they agree on the version argument and on every
      rendered field, so nothing rendered can change without changing the text that is hashed into the
      idempotency key. */
  lemma CanonicalExactly(a: Request, v: string, b: Request, w: string, utf8: string -> seq<Sha256.byte>)
    ensures Canonical(a, v, utf8) == Canonical(b, w, utf8) <==> v == w && Visible(a) == Visible(b)
  {
    hide Normalized, Visible, Wrapped, Sha256.DigestHex;
    var s, t := Normalized(a, v), Normalized(b, w);
    if Canonical(a, v, utf8) == Canonical(b, w, utf8) {
      Unwrap(Sha256.DigestHex(utf8(s)), s, Sha256.DigestHex(utf8(t)), t);
      NormalizedDetermines(a, v, b, w);
    }
    if v == w && Visible(a) == Visible(b) { VisibleDetermines(a, b, v); }
  }
}
