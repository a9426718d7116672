/** The hand-written encoder of the TypeScript SDK: its messages, what it writes, and the writers. */
module Proto {
  import opened Messages
  import opened Utf8
  import opened Wire

  // ---------------------------------------------------------------------------
  // The SDK's messages
  // ---------------------------------------------------------------------------

  datatype SdkStage = SdkStage(jobs: seq<SdkNode>)

  /** Both `job` and `stage` are optional properties, so a node may carry both. */
  datatype SdkNode = SdkNode(
    id: string,
    dependsOn: seq<string>,
    conditions: seq<string>,
    job: Option<JobSpec>,
    stage: Option<SdkStage>)

  datatype SdkSpec = SdkSpec(workflow: WorkflowRef, nodes: seq<SdkNode>)

  datatype SdkDAG = SdkDAG(name: string, version: string, nodes: seq<SdkNode>)

  // ---------------------------------------------------------------------------
  // The fields of each message
  // ---------------------------------------------------------------------------

  /** Length-delimited fields under positive numbers. */
  predicate Plain(fs: seq<Field>) {
    forall f :: f in fs ==> f.Len? && f.num > 0
  }

  /** A string field, left out when empty. */
  function StringField(num: nat, s: string): (fs: seq<Field>)
    requires num > 0
    ensures Plain(fs)
  {
    if s == "" then [] else [Len(num, Encode(s))]
  }

  /** A repeated string field. */
  function StringFields(num: nat, ss: seq<string>): (fs: seq<Field>)
    requires num > 0
    ensures Plain(fs)
  {
    if ss == [] then [] else StringFields(num, ss[..|ss| - 1]) + [Len(num, Encode(ss[|ss| - 1]))]
  }

  function EnvFields(e: EnvVar): (fs: seq<Field>)
    ensures Plain(fs)
  {
    StringField(1, e.key) + StringField(2, e.value)
  }

  function EnvsFields(es: seq<EnvVar>): (fs: seq<Field>)
    ensures Plain(fs)
  {
    if es == [] then [] else EnvsFields(es[..|es| - 1]) + [Len(2, Serialize(EnvFields(es[|es| - 1])))]
  }

  function JobFields(j: JobSpec): (fs: seq<Field>)
    ensures Plain(fs)
  {
    StringFields(1, j.commands) + EnvsFields(j.env) + StringFields(3, j.secrets) + StringFields(4, j.artifactPaths)
  }

  function RefFields(r: WorkflowRef): (fs: seq<Field>)
    ensures Plain(fs)
  {
    StringField(1, r.name) + StringField(2, r.version)
  }

  function NodeFields(n: SdkNode): (fs: seq<Field>)
    ensures Plain(fs)
    decreases n, 1
  {
    StringField(1, n.id) + StringFields(2, n.dependsOn) + StringFields(3, n.conditions) + KindFields(n)
  }

  /** The job if there is one, and only otherwise the stage. */
  function KindFields(n: SdkNode): (fs: seq<Field>)
    ensures Plain(fs)
    decreases n, 0
  {
    if n.job.Some? then [Len(4, Serialize(JobFields(n.job.value)))]
    else if n.stage.Some? then [Len(5, Serialize(NodesFields(1, n.stage.value.jobs)))]
    else []
  }

  /** A repeated node field. */
  function NodesFields(num: nat, ns: seq<SdkNode>): (fs: seq<Field>)
    requires num > 0
    ensures Plain(fs)
    decreases ns, 0
  {
    if ns == [] then []
    else
      var last := |ns| - 1;
      assert ns[last] in ns;
      NodesFields(num, ns[..last]) + [Len(num, Serialize(NodeFields(ns[last])))]
  }

  function SpecFields(s: SdkSpec): (fs: seq<Field>)
    ensures Plain(fs)
  {
    [Len(1, Serialize(RefFields(s.workflow)))] + NodesFields(2, s.nodes)
  }

  function DAGFields(d: SdkDAG): (fs: seq<Field>)
    ensures Plain(fs)
  {
    StringField(1, d.name) + StringField(2, d.version) + NodesFields(3, d.nodes)
  }

  // ---------------------------------------------------------------------------
  // The order of the fields, and what is left out
  // ---------------------------------------------------------------------------

  /** The field numbers never go down. */
  predicate Ascending(fs: seq<Field>) {
    forall i, j :: 0 <= i < j < |fs| ==> fs[i].num <= fs[j].num
  }

  /** All numbers lie between the two. */
  predicate Between(low: nat, fs: seq<Field>, high: nat) {
    forall f :: f in fs ==> low <= f.num <= high
  }

  lemma AscendingAppend(low: nat, a: seq<Field>, mid: nat, b: seq<Field>, high: nat)
    requires Ascending(a) && Between(low, a, mid) && Ascending(b) && Between(mid, b, high) && low <= mid <= high
    ensures Ascending(a + b) && Between(low, a + b, high)
  {
    forall i, j | 0 <= i < j < |a + b|
      ensures (a + b)[i].num <= (a + b)[j].num
    {
      if i < |a| <= j {
        assert a[i] in a && b[j - |a|] in b;
      }
    }
  }

  lemma StringAscends(num: nat, s: string)
    requires num > 0
    ensures Ascending(StringField(num, s)) && Between(num, StringField(num, s), num)
  {
  }

  lemma {:induction false} StringsAscend(num: nat, ss: seq<string>)
    requires num > 0
    ensures Ascending(StringFields(num, ss)) && Between(num, StringFields(num, ss), num)
  {
    if ss != [] {
      StringsAscend(num, ss[..|ss| - 1]);
      AscendingAppend(num, StringFields(num, ss[..|ss| - 1]), num, [Len(num, Encode(ss[|ss| - 1]))], num);
    }
  }

  lemma {:induction false} EnvsAscend(es: seq<EnvVar>)
    ensures Ascending(EnvsFields(es)) && Between(2, EnvsFields(es), 2)
  {
    if es != [] {
      EnvsAscend(es[..|es| - 1]);
      AscendingAppend(2, EnvsFields(es[..|es| - 1]), 2, [Len(2, Serialize(EnvFields(es[|es| - 1])))], 2);
    }
  }

  lemma {:induction false} NodesAscend(num: nat, ns: seq<SdkNode>)
    requires num > 0
    ensures Ascending(NodesFields(num, ns)) && Between(num, NodesFields(num, ns), num)
  {
    if ns != [] {
      NodesAscend(num, ns[..|ns| - 1]);
      AscendingAppend(num, NodesFields(num, ns[..|ns| - 1]), num, [Len(num, Serialize(NodeFields(ns[|ns| - 1])))], num);
    }
  }

  lemma JobAscends(j: JobSpec)
    ensures Ascending(JobFields(j))
  {
    var a, b, c, d := StringFields(1, j.commands), EnvsFields(j.env), StringFields(3, j.secrets), StringFields(4, j.artifactPaths);
    StringsAscend(1, j.commands);
    EnvsAscend(j.env);
    StringsAscend(3, j.secrets);
    StringsAscend(4, j.artifactPaths);
    AscendingAppend(1, a, 2, b, 2);
    AscendingAppend(1, a + b, 3, c, 3);
    AscendingAppend(1, a + b + c, 4, d, 4);
  }

  lemma KindAscends(n: SdkNode)
    ensures Ascending(KindFields(n)) && Between(4, KindFields(n), 5)
  {
  }

  lemma PairAscends(a: string, b: string)
    ensures Ascending(StringField(1, a) + StringField(2, b)) && Between(1, StringField(1, a) + StringField(2, b), 2)
  {
    StringAscends(1, a);
    StringAscends(2, b);
    AscendingAppend(1, StringField(1, a), 2, StringField(2, b), 2);
  }

  lemma NodeAscends(n: SdkNode)
    ensures Ascending(NodeFields(n))
  {
    var a, b, c := StringField(1, n.id), StringFields(2, n.dependsOn), StringFields(3, n.conditions);
    StringAscends(1, n.id);
    StringsAscend(2, n.dependsOn);
    StringsAscend(3, n.conditions);
    AscendingAppend(1, a, 2, b, 2);
    AscendingAppend(1, a + b, 3, c, 3);
    KindAscends(n);
    AscendingAppend(1, a + b + c, 4, KindFields(n), 5);
  }

  /** Every message is written in the order of its field numbers. */
  lemma FieldsAscend(e: EnvVar, j: JobSpec, n: SdkNode, s: SdkSpec, d: SdkDAG)
    ensures Ascending(EnvFields(e)) && Ascending(JobFields(j)) && Ascending(NodeFields(n)) && Ascending(RefFields(s.workflow))
    ensures Ascending(SpecFields(s)) && Ascending(DAGFields(d))
  {
    PairAscends(e.key, e.value);
    JobAscends(j);
    NodeAscends(n);
    PairAscends(s.workflow.name, s.workflow.version);
    NodesAscend(2, s.nodes);
    AscendingAppend(1, [Len(1, Serialize(RefFields(s.workflow)))], 2, NodesFields(2, s.nodes), 2);
    PairAscends(d.name, d.version);
    NodesAscend(3, d.nodes);
    AscendingAppend(1, StringField(1, d.name) + StringField(2, d.version), 3, NodesFields(3, d.nodes), 3);
  }

  /** No field with one of the two numbers is empty. */
  predicate NoneEmpty(fs: seq<Field>, one: nat, two: nat) {
    forall f :: f in fs && (f.num == one || f.num == two) ==> f.Len? && f.payload != []
  }

  lemma StringNotEmpty(num: nat, s: string)
    requires num > 0
    ensures forall f :: f in StringField(num, s) ==> f.Len? && f.payload != []
  {
    EncodingLength(s, ' ');
  }

  /** An empty string that is not an element of a list is not written. */
  lemma EmptyStringsLeftOut(e: EnvVar, r: WorkflowRef, n: SdkNode, d: SdkDAG)
    ensures NoneEmpty(EnvFields(e), 1, 2) && NoneEmpty(RefFields(r), 1, 2)
    ensures NoneEmpty(NodeFields(n), 1, 1) && NoneEmpty(DAGFields(d), 1, 2)
  {
    StringNotEmpty(1, e.key);
    StringNotEmpty(2, e.value);
    StringNotEmpty(1, r.name);
    StringNotEmpty(2, r.version);
    StringNotEmpty(1, n.id);
    StringsAscend(2, n.dependsOn);
    StringsAscend(3, n.conditions);
    StringNotEmpty(1, d.name);
    StringNotEmpty(2, d.version);
    NodesAscend(3, d.nodes);
  }

  // ---------------------------------------------------------------------------
  // The writers
  // ---------------------------------------------------------------------------

  lemma SerializeOne(num: nat, payload: bytes)
    ensures Serialize([Len(num, payload)]) == PutRecord(num, payload)
  {
    assert [Len(num, payload)][1..] == [];
  }

  /** Writing one list of fields after another. */
  lemma WrittenInTurn(start: bytes, a: seq<Field>, b: seq<Field>)
    requires Plain(a) && Plain(b)
    ensures Plain(a + b)
    ensures (start + Serialize(a)) + Serialize(b) == start + Serialize(a + b)
  {
    SerializeAppend(a, b);
    Associative(start, Serialize(a), Serialize(b));
  }

  /** What a loop has written, and one more record. */
  lemma SerializeNext(start: bytes, fs: seq<Field>, num: nat, payload: bytes)
    requires Plain(fs) && num > 0
    ensures Plain(fs + [Len(num, payload)])
    ensures (start + Serialize(fs)) + PutRecord(num, payload) == start + Serialize(fs + [Len(num, payload)])
  {
    WrittenInTurn(start, fs, [Len(num, payload)]);
    SerializeOne(num, payload);
  }

  /** A nested writer starts empty. */
  lemma StartedEmpty(buf: bytes, fs: seq<Field>)
    requires Plain(fs) && buf == [] + Serialize(fs)
    ensures buf == Serialize(fs)
  {
  }

  /** The part of the runtime library's writer that the encoder uses. */
  class BinaryWriter {
    var buf: bytes

    constructor ()
      ensures buf == []
    {
      buf := [];
    }

    /** `tag(num, 2).bytes(payload)`, and `tag(num, 2).string(s)` on the encoded string. */
    method Record(num: nat, payload: bytes)
      modifies this
      ensures buf == old(buf) + PutRecord(num, payload)
    {
      buf := buf + PutVarint(8 * num + 2);
      buf := buf + PutVarint(|payload|);
      buf := buf + payload;
    }
  }

  /** `if (s) w.tag(num, 2).string(s)` */
  method WriteString(w: BinaryWriter, num: nat, s: string)
    requires num > 0
    modifies w
    ensures w.buf == old(w.buf) + Serialize(StringField(num, s))
  {
    if s != "" {
      SerializeOne(num, Encode(s));
      w.Record(num, Encode(s));
    }
  }

  /** `for (const s of ss) w.tag(num, 2).string(s)` */
  method WriteStrings(w: BinaryWriter, num: nat, ss: seq<string>)
    requires num > 0
    modifies w
    ensures w.buf == old(w.buf) + Serialize(StringFields(num, ss))
  {
    for i := 0 to |ss|
      invariant w.buf == old(w.buf) + Serialize(StringFields(num, ss[..i]))
    {
      w.Record(num, Encode(ss[i]));
      assert ss[..i + 1][..i] == ss[..i];
      SerializeNext(old(w.buf), StringFields(num, ss[..i]), num, Encode(ss[i]));
    }
    assert ss[..|ss|] == ss;
  }

  method WriteEnvVar(w: BinaryWriter, env: EnvVar)
    modifies w
    ensures w.buf == old(w.buf) + Serialize(EnvFields(env))
  {
    WriteString(w, 1, env.key);
    WriteString(w, 2, env.value);
    WrittenInTurn(old(w.buf), StringField(1, env.key), StringField(2, env.value));
  }

  method WriteEnvVars(w: BinaryWriter, es: seq<EnvVar>)
    modifies w
    ensures w.buf == old(w.buf) + Serialize(EnvsFields(es))
  {
    for i := 0 to |es|
      invariant w.buf == old(w.buf) + Serialize(EnvsFields(es[..i]))
    {
      var nested := new BinaryWriter();
      WriteEnvVar(nested, es[i]);
      StartedEmpty(nested.buf, EnvFields(es[i]));
      w.Record(2, nested.buf);
      assert es[..i + 1][..i] == es[..i];
      SerializeNext(old(w.buf), EnvsFields(es[..i]), 2, nested.buf);
    }
    assert es[..|es|] == es;
  }

  method WriteJobSpec(w: BinaryWriter, spec: JobSpec)
    modifies w
    ensures w.buf == old(w.buf) + Serialize(JobFields(spec))
  {
    WriteStrings(w, 1, spec.commands);
    WriteEnvVars(w, spec.env);
    WriteStrings(w, 3, spec.secrets);
    WriteStrings(w, 4, spec.artifactPaths);
    ghost var start, a, b := old(w.buf), StringFields(1, spec.commands), EnvsFields(spec.env);
    WrittenInTurn(start, a, b);
    WrittenInTurn(start, a + b, StringFields(3, spec.secrets));
    WrittenInTurn(start, a + b + StringFields(3, spec.secrets), StringFields(4, spec.artifactPaths));
  }

  method WriteNode(w: BinaryWriter, node: SdkNode)
    modifies w
    ensures w.buf == old(w.buf) + Serialize(NodeFields(node))
    decreases node, 1
  {
    WriteString(w, 1, node.id);
    WriteStrings(w, 2, node.dependsOn);
    WriteStrings(w, 3, node.conditions);
    ghost var head := StringField(1, node.id) + StringFields(2, node.dependsOn);
    WrittenInTurn(old(w.buf), StringField(1, node.id), StringFields(2, node.dependsOn));
    WrittenInTurn(old(w.buf), head, StringFields(3, node.conditions));
    ghost var start := head + StringFields(3, node.conditions);
    if node.job.Some? {
      var nested := new BinaryWriter();
      WriteJobSpec(nested, node.job.value);
      StartedEmpty(nested.buf, JobFields(node.job.value));
      w.Record(4, nested.buf);
      SerializeNext(old(w.buf), start, 4, nested.buf);
    } else if node.stage.Some? {
      var nested := new BinaryWriter();
      WriteStageSpec(nested, node.stage.value);
      StartedEmpty(nested.buf, NodesFields(1, node.stage.value.jobs));
      w.Record(5, nested.buf);
      SerializeNext(old(w.buf), start, 5, nested.buf);
    } else {
      assert NodeFields(node) == start;
    }
  }

  method WriteStageSpec(w: BinaryWriter, stage: SdkStage)
    modifies w
    ensures w.buf == old(w.buf) + Serialize(NodesFields(1, stage.jobs))
    decreases stage, 0
  {
    WriteNodes(w, 1, stage.jobs);
  }

  /** `for (const node of ns)`: a nested writer for each node, then one record. */
  method WriteNodes(w: BinaryWriter, num: nat, ns: seq<SdkNode>)
    requires num > 0
    modifies w
    ensures w.buf == old(w.buf) + Serialize(NodesFields(num, ns))
    decreases ns, 0
  {
    for i := 0 to |ns|
      invariant w.buf == old(w.buf) + Serialize(NodesFields(num, ns[..i]))
    {
      var nested := new BinaryWriter();
      assert ns[i] in ns;
      WriteNode(nested, ns[i]);
      StartedEmpty(nested.buf, NodeFields(ns[i]));
      w.Record(num, nested.buf);
      assert ns[..i + 1][..i] == ns[..i];
      SerializeNext(old(w.buf), NodesFields(num, ns[..i]), num, nested.buf);
    }
    assert ns[..|ns|] == ns;
  }

  method WriteWorkflowRef(w: BinaryWriter, ref: WorkflowRef)
    modifies w
    ensures w.buf == old(w.buf) + Serialize(RefFields(ref))
  {
    WriteString(w, 1, ref.name);
    WriteString(w, 2, ref.version);
    WrittenInTurn(old(w.buf), StringField(1, ref.name), StringField(2, ref.version));
  }

  method EncodePipelineSpec(spec: SdkSpec) returns (b: bytes)
    ensures b == Serialize(SpecFields(spec))
  {
    var w := new BinaryWriter();
    var wfNested := new BinaryWriter();
    WriteWorkflowRef(wfNested, spec.workflow);
    StartedEmpty(wfNested.buf, RefFields(spec.workflow));
    w.Record(1, wfNested.buf);
    SerializeOne(1, wfNested.buf);
    assert w.buf == [] + Serialize([Len(1, wfNested.buf)]);
    WriteNodes(w, 2, spec.nodes);
    WrittenInTurn([], [Len(1, wfNested.buf)], NodesFields(2, spec.nodes));
    StartedEmpty(w.buf, SpecFields(spec));
    return w.buf;
  }

  method EncodeWorkflowDAG(dag: SdkDAG) returns (b: bytes)
    ensures b == Serialize(DAGFields(dag))
  {
    var w := new BinaryWriter();
    WriteString(w, 1, dag.name);
    WriteString(w, 2, dag.version);
    WriteNodes(w, 3, dag.nodes);
    WrittenInTurn([], StringField(1, dag.name), StringField(2, dag.version));
    WrittenInTurn([], StringField(1, dag.name) + StringField(2, dag.version), NodesFields(3, dag.nodes));
    StartedEmpty(w.buf, DAGFields(dag));
    return w.buf;
  }
}
