/** Where each field of a request stands in the canonical text: every value follows its own name. */
module JobSpecFields {
  import opened JobSpec
  import Sha256

  /** The part is rendered right behind the name. */
  ghost predicate Labelled(p: seq<Part>, name: string, v: Part) {
    exists i, before :: 0 <= i < |p| - 1 && p[i] == Name(before, name) && p[i + 1] == v
  }

  lemma LabelledAt(p: seq<Part>, i: nat, before: string, name: string, v: Part)
    requires i < |p| - 1 && p[i] == Name(before, name) && p[i + 1] == v
    ensures Labelled(p, name, v)
  {}

  /** The name, quoted and with its colon, and then the value. */
  ghost function Spelled(before: string, name: string, value: string, after: string): string {
    before + ("\"" + name + "\":") + value + after
  }

  lemma SpelledFirst(a: string, b: string, c: string, name: string, v: string)
    requires a == b + ("\"" + name + "\":")
    ensures a + (v + c) == Spelled(b, name, v, c)
  {}

  lemma SpelledLater(a: string, b: string, c: string, name: string, v: string)
    ensures a + Spelled(b, name, v, c) == Spelled(a + b, name, v, c)
  {}

  lemma TextOf(p: seq<Part>)
    requires p != []
    ensures JobSpec.Text(p) == PartText(p[0]) + JobSpec.Text(p[1..])
  {}

  lemma NameText(before: string, name: string)
    ensures PartText(Name(before, name)) == before + ("\"" + name + "\":")
  {}

  /** A labelled value stands in the text behind its name. */
  lemma {:induction false} LabelledShows(p: seq<Part>, name: string, v: Part) returns (a: string, b: string)
    requires Labelled(p, name, v)
    ensures JobSpec.Text(p) == Spelled(a, name, PartText(v), b)
  {
    hide PartText, JobSpec.Text, Spelled, Name;
    var i, before :| 0 <= i < |p| - 1 && p[i] == Name(before, name) && p[i + 1] == v;
    TextOf(p);
    if i == 0 {
      a, b := before, JobSpec.Text(p[1..][1..]);
      TextOf(p[1..]);
      NameText(before, name);
      SpelledFirst(PartText(p[0]), before, b, name, PartText(v));
    } else {
      LabelledAt(p[1..], i - 1, before, name, v);
      var c, d := LabelledShows(p[1..], name, v);
      a, b := PartText(p[0]) + c, d;
      SpelledLater(PartText(p[0]), c, d, name, PartText(v));
    }
  }

  // ---- the workload -------------------------------------------------------------------------------------------

  lemma LineageLabelled(l: Lineage, backendTarget: string)
    ensures var p := LineageParts(l, backendTarget);
      && Labelled(p, "execution_ref", Str(l.executionRef)) && Labelled(p, "parent_ref", Str(l.parentRef))
      && Labelled(p, "policy_snapshot_ref", Str(l.policySnapshotRef)) && Labelled(p, "root_ref", Str(l.rootRef))
      && Labelled(p, "backend_target", Str(backendTarget))
  {
    hide Labelled, Name;
    var p := LineageParts(l, backendTarget);
    LabelledAt(p, 0, "{\"artifact_lineage\":{", "execution_ref", Str(l.executionRef));
    LabelledAt(p, 2, ",", "parent_ref", Str(l.parentRef));
    LabelledAt(p, 4, ",", "policy_snapshot_ref", Str(l.policySnapshotRef));
    LabelledAt(p, 6, ",", "root_ref", Str(l.rootRef));
    LabelledAt(p, 8, "},", "backend_target", Str(backendTarget));
  }

  lemma TopologyLabelled(t: Topology)
    ensures var p := TopologyParts(t);
      && Labelled(p, "cluster_id", Str(t.clusterId)) && Labelled(p, "partition_count", Num(t.partitionCount))
      && Labelled(p, "partition_ids", List(t.partitionIds))
      && Labelled(p, "preferred_workers", List(t.preferredWorkers))
  {
    hide Labelled, Name;
    var p := TopologyParts(t);
    LabelledAt(p, 0, ",\"topology\":{", "cluster_id", Str(t.clusterId));
    LabelledAt(p, 2, ",", "partition_count", Num(t.partitionCount));
    LabelledAt(p, 4, "", "partition_ids", List(t.partitionIds));
    LabelledAt(p, 6, ",", "preferred_workers", List(t.preferredWorkers));
  }

  lemma ProfileLabelled(w: Workload)
    ensures var p, o := ProfileParts(w), w.observability;
      && Labelled(p, "execution_profile", Str(w.executionProfile)) && Labelled(p, "kind", Str(w.kind))
      && Labelled(p, "emit_metrics", Flag(o.emitMetrics)) && Labelled(p, "trace_id", Str(o.traceId))
      && Labelled(p, "trace_ref", Str(o.traceRef)) && Labelled(p, "traceparent", Str(o.traceparent))
  {
    hide Labelled, Name;
    var p, o := ProfileParts(w), w.observability;
    LabelledAt(p, 0, ",", "execution_profile", Str(w.executionProfile));
    LabelledAt(p, 2, ",", "kind", Str(w.kind));
    LabelledAt(p, 4, ",\"observability\":{", "emit_metrics", Flag(o.emitMetrics));
    LabelledAt(p, 6, ",", "trace_id", Str(o.traceId));
    LabelledAt(p, 8, ",", "trace_ref", Str(o.traceRef));
    LabelledAt(p, 10, ",", "traceparent", Str(o.traceparent));
  }

  lemma SecurityLabelled(replayable: bool, s: Security)
    ensures var p := SecurityParts(replayable, s);
      && Labelled(p, "replayable", Flag(replayable)) && Labelled(p, "fail_closed", Flag(s.failClosed))
      && Labelled(p, "policy_snapshot_ref", Str(s.policySnapshotRef)) && Labelled(p, "project_id", Str(s.projectId))
      && Labelled(p, "service_identity", Str(s.serviceIdentity)) && Labelled(p, "tenant_id", Str(s.tenantId))
  {
    hide Labelled, Name;
    SecurityFlagsLabelled(replayable, s);
    var p := SecurityParts(replayable, s);
    LabelledAt(p, 6, ",", "project_id", Str(s.projectId));
    LabelledAt(p, 8, ",", "service_identity", Str(s.serviceIdentity));
    LabelledAt(p, 10, ",", "tenant_id", Str(s.tenantId));
  }

  lemma SecurityFlagsLabelled(replayable: bool, s: Security)
    ensures var p := SecurityParts(replayable, s);
      && Labelled(p, "replayable", Flag(replayable)) && Labelled(p, "fail_closed", Flag(s.failClosed))
      && Labelled(p, "policy_snapshot_ref", Str(s.policySnapshotRef))
  {
    hide Labelled, Name;
    var p := SecurityParts(replayable, s);
    LabelledAt(p, 0, "},", "replayable", Flag(replayable));
    LabelledAt(p, 2, ",\"security\":{", "fail_closed", Flag(s.failClosed));
    LabelledAt(p, 4, ",", "policy_snapshot_ref", Str(s.policySnapshotRef));
  }

  // ---- the rest of the document --------------------------------------------------------------------------------

  lemma VersionLabelled(version: string)
    ensures Labelled(VersionParts(version), "input_apiVersion", Str(version))
  {
    hide Labelled, Name;
    LabelledAt(VersionParts(version), 0, "{\"apiVersion\":\"eigen.os/v1\",\"compatibility\":{", "input_apiVersion",
      Str(version));
  }

  /** The metadata is shown without the raw job file. */
  lemma SpecLabelled(version: string, r: Request)
    ensures var p := SpecParts(version, r.name, r);
      && Labelled(p, "name", Str(r.name)) && Labelled(p, "compiler_options", Table(r.compilerOptions))
      && Labelled(p, "dependencies", List(r.dependencies)) && Labelled(p, "priority", Num(r.priority))
      && Labelled(p, "metadata", Table(r.metadata - {"jobspec_yaml"}))
  {
    hide Labelled, Name, Preamble;
    var p := SpecParts(version, r.name, r);
    var before := "},\"observability\":{},\"scheduling\":{},\"security\":{},\"spec\":{";
    assert |p| == 10 && p[0] == Name(Preamble(version), "name") && p[2] == Name(before, "compiler_options");
    LabelledAt(p, 0, Preamble(version), "name", Str(r.name));
    LabelledAt(p, 2, before, "compiler_options", Table(r.compilerOptions));
    LabelledAt(p, 4, ",", "dependencies", List(r.dependencies));
    LabelledAt(p, 6, ",", "metadata", Table(Shown(r.metadata)));
    LabelledAt(p, 8, ",", "priority", Num(r.priority));
  }

  /** Whether the document was migrated can be read off it. */
  lemma PreambleReads(version: string)
    ensures ",\"migration\":\"" + (if version == "eigen.os/v0.1" then "v0.1-inline-and-program_path" else "none")
      <= Preamble(version)
  {}

  lemma ProgramLabelled(q: Program, target: string)
    ensures var p := ProgramParts(q, target);
      && Labelled(p, "entrypoint", Str(q.entrypoint)) && Labelled(p, "sha256", Str(q.sha256))
      && Labelled(p, "source", Str(q.source)) && Labelled(p, "target", Str(target))
  {
    hide Labelled, Name;
    var p := ProgramParts(q, target);
    LabelledAt(p, 0, "\"program\":{", "entrypoint", Str(q.entrypoint));
    LabelledAt(p, 2, ",", "sha256", Str(q.sha256));
    LabelledAt(p, 4, ",", "source", Str(q.source));
    LabelledAt(p, 6, "},", "target", Str(target));
  }

  /** The document names the digest of the normalized text and then holds that text. */
  lemma DocumentReads(r: Request, version: string, utf8: string -> seq<Sha256.byte>)
    ensures var text := Normalized(r, version);
      var digest := "\"" + Sha256.DigestHex(utf8(text)) + "\"";
      Canonical(r, version, utf8) == Spelled("{", "digest", digest, Spelled(",", "normalized", text, "}"))
  {
    hide Normalized, Sha256.DigestHex;
    var text := Normalized(r, version);
    DocumentSplits(Sha256.DigestHex(utf8(text)), text);
  }

  lemma DocumentSplits(digest: string, text: string)
    ensures Wrapped(digest, text) ==
      Spelled("{", "digest", "\"" + digest + "\"", Spelled(",", "normalized", text, "}"))
  {}
}
