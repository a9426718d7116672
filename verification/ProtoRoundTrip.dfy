/** What the SDK encodes is what the master decodes. */
module ProtoRoundTrip {
  import opened Messages
  import opened Utf8
  import opened Wire
  import opened Decoder
  import opened Proto

  // ---------------------------------------------------------------------------
  // The message a node stands for
  // ---------------------------------------------------------------------------

  /** A node with a job is that job: the stage it may also carry is dropped. */
  function Received(n: SdkNode): Node
    decreases n, 1
  {
    Node(n.id, n.dependsOn, n.conditions,
         if n.job.Some? then Job(n.job.value)
         else if n.stage.Some? then Stage(StageSpec(AllReceived(n.stage.value.jobs)))
         else Unset)
  }

  function AllReceived(ns: seq<SdkNode>): (r: seq<Node>)
    ensures |r| == |ns|
    decreases ns, 0
  {
    if ns == [] then []
    else
      assert ns[|ns| - 1] in ns;
      AllReceived(ns[..|ns| - 1]) + [Received(ns[|ns| - 1])]
  }

  function SpecReceived(s: SdkSpec): PipelineSpec {
    PipelineSpec(Some(s.workflow), AllReceived(s.nodes))
  }

  function DAGReceived(d: SdkDAG): WorkflowDAG {
    WorkflowDAG(d.name, d.version, AllReceived(d.nodes))
  }

  // ---------------------------------------------------------------------------
  // Merging a list of fields in two parts
  // ---------------------------------------------------------------------------

  lemma {:induction false} MergeEnvAppend(acc: EnvVar, a: seq<Field>, b: seq<Field>)
    requires MergeEnv(acc, a).Some?
    ensures MergeEnv(acc, a + b) == MergeEnv(MergeEnv(acc, a).value, b)
  {
    if b == [] {
      AppendEmpty(a);
    } else {
      MergeEnvAppend(acc, a, b[..|b| - 1]);
      LastOfAppend(a, b);
    }
  }

  lemma {:induction false} MergeRefAppend(acc: WorkflowRef, a: seq<Field>, b: seq<Field>)
    requires MergeRef(acc, a).Some?
    ensures MergeRef(acc, a + b) == MergeRef(MergeRef(acc, a).value, b)
  {
    if b == [] {
      AppendEmpty(a);
    } else {
      MergeRefAppend(acc, a, b[..|b| - 1]);
      LastOfAppend(a, b);
    }
  }

  lemma {:induction false} MergeJobAppend(acc: JobSpec, a: seq<Field>, b: seq<Field>)
    requires MergeJob(acc, a).Some?
    ensures MergeJob(acc, a + b) == MergeJob(MergeJob(acc, a).value, b)
  {
    if b == [] {
      AppendEmpty(a);
    } else {
      MergeJobAppend(acc, a, b[..|b| - 1]);
      LastOfAppend(a, b);
    }
  }

  lemma {:induction false} FieldBound(m: Node, f: Field, i: nat, j: nat)
    requires Weight(f) <= i && Weight(f) <= j
    ensures NodeField(m, f, i) == NodeField(m, f, j)
  {
  }

  lemma {:induction false} MergeNodeAppend(acc: Node, a: seq<Field>, b: seq<Field>)
    requires MergeNode(acc, a).Some?
    ensures MergeNode(acc, a + b) == MergeNode(MergeNode(acc, a).value, b)
  {
    if b == [] {
      AppendEmpty(a);
    } else {
      var start, last := b[..|b| - 1], b[|b| - 1];
      MergeNodeAppend(acc, a, start);
      LastOfAppend(a, b);
      var m := MergeNode(acc, a + start);
      if m.Some? {
        FieldBound(m.value, last, Size(a + b), Size(b));
      }
    }
  }

  lemma {:induction false} MergeSpecAppend(acc: PipelineSpec, a: seq<Field>, b: seq<Field>)
    requires MergeSpec(acc, a).Some?
    ensures MergeSpec(acc, a + b) == MergeSpec(MergeSpec(acc, a).value, b)
  {
    if b == [] {
      AppendEmpty(a);
    } else {
      MergeSpecAppend(acc, a, b[..|b| - 1]);
      LastOfAppend(a, b);
    }
  }

  lemma {:induction false} MergeDAGAppend(acc: WorkflowDAG, a: seq<Field>, b: seq<Field>)
    requires MergeDAG(acc, a).Some?
    ensures MergeDAG(acc, a + b) == MergeDAG(MergeDAG(acc, a).value, b)
  {
    if b == [] {
      AppendEmpty(a);
    } else {
      MergeDAGAppend(acc, a, b[..|b| - 1]);
      LastOfAppend(a, b);
    }
  }

  // ---------------------------------------------------------------------------
  // Strings
  // ---------------------------------------------------------------------------

  lemma EnvString(acc: EnvVar, num: nat, s: string)
    requires (num == 1 && acc.key == "") || (num == 2 && acc.value == "")
    ensures MergeEnv(acc, StringField(num, s)) == Some(if num == 1 then acc.(key := s) else acc.(value := s))
  {
    if s != "" {
      RoundTrip(s);
      Snoc([], Len(num, Encode(s)));
      assert StringField(num, s) == [] + [Len(num, Encode(s))];
    }
  }

  lemma RefString(acc: WorkflowRef, num: nat, s: string)
    requires (num == 1 && acc.name == "") || (num == 2 && acc.version == "")
    ensures MergeRef(acc, StringField(num, s)) == Some(if num == 1 then acc.(name := s) else acc.(version := s))
  {
    if s != "" {
      RoundTrip(s);
      Snoc([], Len(num, Encode(s)));
      assert StringField(num, s) == [] + [Len(num, Encode(s))];
    }
  }

  /** A list of workflow fields and one more. */
  lemma DAGPlusField(acc: WorkflowDAG, fs: seq<Field>, f: Field)
    requires MergeDAG(acc, fs).Some?
    ensures MergeDAG(acc, fs + [f]) == DAGField(MergeDAG(acc, fs).value, f)
  {
    Snoc(fs, f);
  }

  lemma DAGOneString(acc: WorkflowDAG, num: nat, s: string)
    requires num == 1 || num == 2
    ensures DAGField(acc, Len(num, Encode(s))) == Some(if num == 1 then acc.(name := s) else acc.(version := s))
  {
    RoundTrip(s);
  }

  lemma DAGString(acc: WorkflowDAG, num: nat, s: string)
    requires (num == 1 && acc.name == "") || (num == 2 && acc.version == "")
    ensures MergeDAG(acc, StringField(num, s)) == Some(if num == 1 then acc.(name := s) else acc.(version := s))
  {
    if s != "" {
      DAGOneString(acc, num, s);
      DAGPlusField(acc, [], Len(num, Encode(s)));
      AppendEmpty(StringField(num, s));
    }
  }

  lemma NodeID(acc: Node, s: string)
    requires acc.id == ""
    ensures MergeNode(acc, StringField(1, s)) == Some(acc.(id := s))
  {
    if s != "" {
      RoundTrip(s);
      NodePlusField(acc, [], Len(1, Encode(s)));
      AppendEmpty(StringField(1, s));
    }
  }

  /** A job with more strings under one of its numbers. */
  function WithStrings(j: JobSpec, num: nat, ss: seq<string>): JobSpec {
    if num == 1 then j.(commands := j.commands + ss)
    else if num == 3 then j.(secrets := j.secrets + ss)
    else j.(artifactPaths := j.artifactPaths + ss)
  }

  /** A list of job fields and one more. */
  lemma JobPlusField(acc: JobSpec, fs: seq<Field>, f: Field)
    requires MergeJob(acc, fs).Some?
    ensures MergeJob(acc, fs + [f]) == JobField(MergeJob(acc, fs).value, f)
  {
    Snoc(fs, f);
  }

  lemma {:induction false} JobStrings(acc: JobSpec, num: nat, ss: seq<string>)
    requires num == 1 || num == 3 || num == 4
    ensures MergeJob(acc, StringFields(num, ss)) == Some(WithStrings(acc, num, ss))
  {
    if ss == [] {
      assert WithStrings(acc, num, []) == acc;
    } else {
      var start, last := ss[..|ss| - 1], ss[|ss| - 1];
      JobStrings(acc, num, start);
      JobPlusField(acc, StringFields(num, start), Len(num, Encode(last)));
      JobOneString(acc, num, start, last);
      SplitLast(ss);
    }
  }

  lemma JobOneString(acc: JobSpec, num: nat, start: seq<string>, last: string)
    requires num == 1 || num == 3 || num == 4
    ensures JobField(WithStrings(acc, num, start), Len(num, Encode(last))) == Some(WithStrings(acc, num, start + [last]))
  {
    RoundTrip(last);
    Associative(acc.commands, start, [last]);
    Associative(acc.secrets, start, [last]);
    Associative(acc.artifactPaths, start, [last]);
  }

  function WithNodeStrings(n: Node, num: nat, ss: seq<string>): Node {
    if num == 2 then n.(dependsOn := n.dependsOn + ss) else n.(conditions := n.conditions + ss)
  }

  lemma {:induction false} NodeStrings(acc: Node, num: nat, ss: seq<string>)
    requires num == 2 || num == 3
    ensures MergeNode(acc, StringFields(num, ss)) == Some(WithNodeStrings(acc, num, ss))
  {
    if ss == [] {
      assert WithNodeStrings(acc, num, []) == acc;
    } else {
      var start, last := ss[..|ss| - 1], ss[|ss| - 1];
      NodeStrings(acc, num, start);
      NodePlusField(acc, StringFields(num, start), Len(num, Encode(last)));
      NodeOneString(acc, num, start, last);
      SplitLast(ss);
    }
  }

  lemma NodeOneString(acc: Node, num: nat, start: seq<string>, last: string)
    requires num == 2 || num == 3
    ensures var f := Len(num, Encode(last));
            NodeField(WithNodeStrings(acc, num, start), f, Weight(f)) == Some(WithNodeStrings(acc, num, start + [last]))
  {
    RoundTrip(last);
    Associative(acc.dependsOn, start, [last]);
    Associative(acc.conditions, start, [last]);
  }

  /** A list of node fields and one more. */
  lemma NodePlusField(acc: Node, fs: seq<Field>, f: Field)
    requires MergeNode(acc, fs).Some?
    ensures MergeNode(acc, fs + [f]) == NodeField(MergeNode(acc, fs).value, f, Weight(f))
  {
    Snoc(fs, f);
    FieldBound(MergeNode(acc, fs).value, f, Size(fs + [f]), Weight(f));
  }

  // ---------------------------------------------------------------------------
  // Messages
  // ---------------------------------------------------------------------------

  lemma EnvRoundTrip(e: EnvVar)
    ensures DecodeEnv(Serialize(EnvFields(e))) == Some(e)
  {
    FieldsRoundTrip(EnvFields(e));
    EnvString(EMPTY_ENV, 1, e.key);
    EnvString(EMPTY_ENV.(key := e.key), 2, e.value);
    MergeEnvAppend(EMPTY_ENV, StringField(1, e.key), StringField(2, e.value));
  }

  lemma JobOneEnv(m: JobSpec, e: EnvVar)
    ensures JobField(m, Len(2, Serialize(EnvFields(e)))) == Some(m.(env := m.env + [e]))
  {
    EnvRoundTrip(e);
  }

  lemma {:induction false} JobEnvs(acc: JobSpec, es: seq<EnvVar>)
    ensures MergeJob(acc, EnvsFields(es)) == Some(acc.(env := acc.env + es))
  {
    if es == [] {
      AppendEmpty(acc.env);
    } else {
      var start, last := es[..|es| - 1], es[|es| - 1];
      JobEnvs(acc, start);
      JobOneEnv(acc.(env := acc.env + start), last);
      JobPlusField(acc, EnvsFields(start), Len(2, Serialize(EnvFields(last))));
      Associative(acc.env, start, [last]);
      SplitLast(es);
    }
  }

  lemma JobRoundTrip(j: JobSpec)
    ensures MergeJob(EMPTY_JOB, JobFields(j)) == Some(j)
  {
    var a, b, c, d := StringFields(1, j.commands), EnvsFields(j.env), StringFields(3, j.secrets), StringFields(4, j.artifactPaths);
    var j1 := JobSpec(j.commands, [], [], []);
    var j2 := j1.(env := j.env);
    var j3 := j2.(secrets := j.secrets);
    assert WithStrings(EMPTY_JOB, 1, j.commands) == j1 && j1.(env := j1.env + j.env) == j2;
    assert WithStrings(j2, 3, j.secrets) == j3 && WithStrings(j3, 4, j.artifactPaths) == j;
    JobStrings(EMPTY_JOB, 1, j.commands);
    JobEnvs(j1, j.env);
    MergeJobAppend(EMPTY_JOB, a, b);
    JobStrings(j2, 3, j.secrets);
    MergeJobAppend(EMPTY_JOB, a + b, c);
    JobStrings(j3, 4, j.artifactPaths);
    MergeJobAppend(EMPTY_JOB, a + b + c, d);
  }

  lemma RefRoundTrip(r: WorkflowRef)
    ensures MergeRef(EMPTY_REF, RefFields(r)) == Some(r)
  {
    RefString(EMPTY_REF, 1, r.name);
    RefString(EMPTY_REF.(name := r.name), 2, r.version);
    MergeRefAppend(EMPTY_REF, StringField(1, r.name), StringField(2, r.version));
  }

  function HeadFields(n: SdkNode): (fs: seq<Field>)
    ensures Plain(fs)
  {
    StringField(1, n.id) + StringFields(2, n.dependsOn) + StringFields(3, n.conditions)
  }

  function HeadNode(n: SdkNode): Node {
    Node(n.id, n.dependsOn, n.conditions, Unset)
  }

  /** The scalar fields of a node, before its job or stage. */
  lemma NodeHead(n: SdkNode)
    ensures MergeNode(EMPTY_NODE, HeadFields(n)) == Some(HeadNode(n))
  {
    var a, b, c := StringField(1, n.id), StringFields(2, n.dependsOn), StringFields(3, n.conditions);
    var n1 := EMPTY_NODE.(id := n.id);
    var n2 := n1.(dependsOn := n.dependsOn);
    assert WithNodeStrings(n1, 2, n.dependsOn) == n2;
    assert WithNodeStrings(n2, 3, n.conditions) == Node(n.id, n.dependsOn, n.conditions, Unset);
    NodeID(EMPTY_NODE, n.id);
    NodeStrings(n1, 2, n.dependsOn);
    MergeNodeAppend(EMPTY_NODE, a, b);
    NodeStrings(n2, 3, n.conditions);
    MergeNodeAppend(EMPTY_NODE, a + b, c);
  }

  lemma NodeWithJob(n: SdkNode)
    requires n.job.Some?
    ensures MergeNode(EMPTY_NODE, NodeFields(n)) == Some(HeadNode(n).(kind := Job(n.job.value)))
  {
    var f := Len(4, Serialize(JobFields(n.job.value)));
    NodeHead(n);
    NodePlusField(EMPTY_NODE, HeadFields(n), f);
    JobRoundTrip(n.job.value);
    FieldsRoundTrip(JobFields(n.job.value));
    assert NodeFields(n) == HeadFields(n) + [f];
  }

  lemma NodeWithStage(n: SdkNode, stage: StageSpec)
    requires n.job == None && n.stage.Some?
    requires MergeStage(StageSpec([]), NodesFields(1, n.stage.value.jobs)) == Some(stage)
    ensures MergeNode(EMPTY_NODE, NodeFields(n)) == Some(HeadNode(n).(kind := Stage(stage)))
  {
    var fs := NodesFields(1, n.stage.value.jobs);
    NodeHead(n);
    NodePlusField(EMPTY_NODE, HeadFields(n), Len(5, Serialize(fs)));
    FieldsRoundTrip(fs);
    assert NodeFields(n) == HeadFields(n) + [Len(5, Serialize(fs))];
  }

  /** A node decodes to the message it stands for, at any depth of nesting. */
  lemma {:induction false} NodeRoundTrip(n: SdkNode)
    ensures MergeNode(EMPTY_NODE, NodeFields(n)) == Some(Received(n))
    decreases n, 1
  {
    if n.job.Some? {
      NodeWithJob(n);
    } else if n.stage.Some? {
      var jobs := n.stage.value.jobs;
      NodesRoundTrip(StageSpec([]), jobs);
      AppendEmpty(AllReceived(jobs));
      NodeWithStage(n, StageSpec(AllReceived(jobs)));
    } else {
      NodeHead(n);
      AppendEmpty(HeadFields(n));
    }
  }

  /** A list of stage fields and one more. */
  lemma StagePlusField(acc: StageSpec, fs: seq<Field>, f: Field, bound: nat)
    requires MergeStage(acc, fs).Some? && Weight(f) <= bound
    ensures MergeStage(acc, fs + [f]) == StageField(MergeStage(acc, fs).value, f, bound)
  {
    Snoc(fs, f);
  }

  lemma StageMember(m: StageSpec, n: SdkNode, bound: nat)
    requires MergeNode(EMPTY_NODE, NodeFields(n)) == Some(Received(n))
    requires Weight(Len(1, Serialize(NodeFields(n)))) <= bound
    ensures StageField(m, Len(1, Serialize(NodeFields(n))), bound) == Some(StageSpec(m.jobs + [Received(n)]))
  {
    FieldsRoundTrip(NodeFields(n));
  }

  lemma StageOneNode(acc: StageSpec, before: seq<Field>, n: SdkNode)
    requires MergeStage(acc, before).Some? && MergeNode(EMPTY_NODE, NodeFields(n)) == Some(Received(n))
    ensures MergeStage(acc, before + [Len(1, Serialize(NodeFields(n)))]) ==
            Some(StageSpec(MergeStage(acc, before).value.jobs + [Received(n)]))
  {
    var f := Len(1, Serialize(NodeFields(n)));
    StagePlusField(acc, before, f, Weight(f));
    StageMember(MergeStage(acc, before).value, n, Weight(f));
  }

  lemma {:induction false} NodesRoundTrip(acc: StageSpec, ns: seq<SdkNode>)
    ensures MergeStage(acc, NodesFields(1, ns)) == Some(StageSpec(acc.jobs + AllReceived(ns)))
    decreases ns, 0
  {
    if ns == [] {
      AppendEmpty(acc.jobs);
    } else {
      var start, last := ns[..|ns| - 1], ns[|ns| - 1];
      assert last in ns;
      NodesRoundTrip(acc, start);
      NodeRoundTrip(last);
      StageOneNode(acc, NodesFields(1, start), last);
      Associative(acc.jobs, AllReceived(start), [Received(last)]);
    }
  }

  lemma DecodesNode(n: SdkNode)
    ensures DecodeNode(Serialize(NodeFields(n))) == Some(Received(n))
  {
    NodeRoundTrip(n);
    FieldsRoundTrip(NodeFields(n));
  }

  lemma {:induction false} SpecNodes(acc: PipelineSpec, ns: seq<SdkNode>)
    ensures MergeSpec(acc, NodesFields(2, ns)) == Some(acc.(nodes := acc.nodes + AllReceived(ns)))
  {
    if ns == [] {
      AppendEmpty(acc.nodes);
    } else {
      var start, last := ns[..|ns| - 1], ns[|ns| - 1];
      SpecNodes(acc, start);
      DecodesNode(last);
      Snoc(NodesFields(2, start), Len(2, Serialize(NodeFields(last))));
      Associative(acc.nodes, AllReceived(start), [Received(last)]);
    }
  }

  lemma {:induction false} DAGNodes(acc: WorkflowDAG, ns: seq<SdkNode>)
    ensures MergeDAG(acc, NodesFields(3, ns)) == Some(acc.(nodes := acc.nodes + AllReceived(ns)))
  {
    if ns == [] {
      AppendEmpty(acc.nodes);
    } else {
      var start, last := ns[..|ns| - 1], ns[|ns| - 1];
      DAGNodes(acc, start);
      DecodesNode(last);
      DAGPlusField(acc, NodesFields(3, start), Len(3, Serialize(NodeFields(last))));
      Associative(acc.nodes, AllReceived(start), [Received(last)]);
    }
  }

  lemma SpecWorkflow(r: WorkflowRef)
    ensures MergeSpec(EMPTY_SPEC, [Len(1, Serialize(RefFields(r)))]) == Some(EMPTY_SPEC.(workflow := Some(r)))
  {
    var f := Len(1, Serialize(RefFields(r)));
    FieldsRoundTrip(RefFields(r));
    RefRoundTrip(r);
    Snoc([], f);
    assert [] + [f] == [f];
  }

  /** The master decodes the bytes of a pipeline specification to the message it stands for. */
  lemma PipelineRoundTrip(s: SdkSpec)
    ensures DecodePipelineSpec(Serialize(SpecFields(s))) == Some(SpecReceived(s))
  {
    var ref := [Len(1, Serialize(RefFields(s.workflow)))];
    FieldsRoundTrip(SpecFields(s));
    var m := EMPTY_SPEC.(workflow := Some(s.workflow));
    SpecWorkflow(s.workflow);
    SpecNodes(m, s.nodes);
    MergeSpecAppend(EMPTY_SPEC, ref, NodesFields(2, s.nodes));
    AppendEmpty(AllReceived(s.nodes));
  }

  lemma DAGRoundTrip(d: SdkDAG)
    ensures DecodeWorkflowDAG(Serialize(DAGFields(d))) == Some(DAGReceived(d))
  {
    var a, b := StringField(1, d.name), StringField(2, d.version);
    FieldsRoundTrip(DAGFields(d));
    var m1 := EMPTY_DAG.(name := d.name);
    var m2 := m1.(version := d.version);
    DAGString(EMPTY_DAG, 1, d.name);
    DAGString(m1, 2, d.version);
    MergeDAGAppend(EMPTY_DAG, a, b);
    DAGNodes(m2, d.nodes);
    MergeDAGAppend(EMPTY_DAG, a + b, NodesFields(3, d.nodes));
    AppendEmpty(AllReceived(d.nodes));
  }

  // ---------------------------------------------------------------------------
  // Injectivity
  // ---------------------------------------------------------------------------

  /** Nodes that stand for the same message are written alike. */
  lemma {:induction false} SameNodeFields(m: SdkNode, n: SdkNode)
    requires Received(m) == Received(n)
    ensures NodeFields(m) == NodeFields(n)
    decreases m, 1
  {
    if m.job == None && m.stage.Some? {
      SameNodesFields(1, m.stage.value.jobs, n.stage.value.jobs);
    }
  }

  lemma {:induction false} SameNodesFields(num: nat, a: seq<SdkNode>, b: seq<SdkNode>)
    requires num > 0 && AllReceived(a) == AllReceived(b)
    ensures NodesFields(num, a) == NodesFields(num, b)
    decreases a, 0
  {
    assert |a| == |b|;
    if a != [] {
      var last := |a| - 1;
      assert a[last] in a;
      ReceivedSnoc(a);
      ReceivedSnoc(b);
      SameNodesFields(num, a[..last], b[..last]);
      SameNodeFields(a[last], b[last]);
    }
  }

  lemma ReceivedSnoc(ns: seq<SdkNode>)
    requires ns != []
    ensures AllReceived(ns)[|ns| - 1] == Received(ns[|ns| - 1])
    ensures AllReceived(ns)[..|ns| - 1] == AllReceived(ns[..|ns| - 1])
  {
  }

  /** Two specifications encode to the same bytes exactly when they stand for the same message. */
  lemma EncodingIsInjective(a: SdkSpec, b: SdkSpec)
    ensures Serialize(SpecFields(a)) == Serialize(SpecFields(b)) <==> SpecReceived(a) == SpecReceived(b)
  {
    PipelineRoundTrip(a);
    PipelineRoundTrip(b);
    if SpecReceived(a) == SpecReceived(b) {
      SameNodesFields(2, a.nodes, b.nodes);
    }
  }

  lemma DAGEncodingIsInjective(a: SdkDAG, b: SdkDAG)
    ensures Serialize(DAGFields(a)) == Serialize(DAGFields(b)) <==> DAGReceived(a) == DAGReceived(b)
  {
    DAGRoundTrip(a);
    DAGRoundTrip(b);
    if DAGReceived(a) == DAGReceived(b) {
      SameNodesFields(3, a.nodes, b.nodes);
    }
  }

  /** No node, at any depth, carries both a job and a stage. */
  predicate OneKind(n: SdkNode)
    decreases n, 1
  {
    !(n.job.Some? && n.stage.Some?) && (n.stage.Some? ==> AllOneKind(n.stage.value.jobs))
  }

  predicate AllOneKind(ns: seq<SdkNode>)
    decreases ns, 0
  {
    ns == [] || (assert ns[|ns| - 1] in ns; AllOneKind(ns[..|ns| - 1]) && OneKind(ns[|ns| - 1]))
  }

  lemma {:induction false} OneKindSame(m: SdkNode, n: SdkNode)
    requires OneKind(m) && OneKind(n) && Received(m) == Received(n)
    ensures m == n
    decreases m, 1
  {
    if m.stage.Some? {
      AllOneKindSame(m.stage.value.jobs, n.stage.value.jobs);
    }
  }

  lemma {:induction false} AllOneKindSame(a: seq<SdkNode>, b: seq<SdkNode>)
    requires AllOneKind(a) && AllOneKind(b) && AllReceived(a) == AllReceived(b)
    ensures a == b
    decreases a, 0
  {
    assert |a| == |b|;
    if a != [] {
      var last := |a| - 1;
      assert a[last] in a;
      ReceivedSnoc(a);
      ReceivedSnoc(b);
      AllOneKindSame(a[..last], b[..last]);
      OneKindSame(a[last], b[last]);
      assert a == a[..last] + [a[last]] && b == b[..last] + [b[last]];
    }
  }

  /** Where no node carries both, nothing is lost: the bytes determine the specification. */
  lemma OneKindBytesDetermine(a: SdkSpec, b: SdkSpec)
    requires AllOneKind(a.nodes) && AllOneKind(b.nodes)
    requires Serialize(SpecFields(a)) == Serialize(SpecFields(b))
    ensures a == b
  {
    EncodingIsInjective(a, b);
    AllOneKindSame(a.nodes, b.nodes);
  }

  /** A node that carries both loses its stage: it is written as if it had only the job. */
  lemma StageBesideJobIsLost(n: SdkNode)
    requires n.job.Some?
    ensures NodeFields(n) == NodeFields(n.(stage := None)) && Received(n).kind == Job(n.job.value)
  {
  }
}
