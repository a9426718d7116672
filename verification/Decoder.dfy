/**
 * A reader of the messages of proto/pipeline.proto. Fields may come in any order: a later scalar
 * replaces an earlier one, repeated fields append, embedded messages merge, a later member of a
 * oneof replaces a different one, and unknown fields are skipped.
 */
module Decoder {
  import opened Messages
  import opened Utf8
  import opened Wire

  const EMPTY_REF := WorkflowRef("", "")
  const EMPTY_ENV := EnvVar("", "")
  const EMPTY_JOB := JobSpec([], [], [], [])
  const EMPTY_NODE := Node("", [], [], Unset)
  const EMPTY_SPEC := PipelineSpec(None, [])
  const EMPTY_DAG := WorkflowDAG("", "", [])

  function MergeRef(acc: WorkflowRef, fs: seq<Field>): Option<WorkflowRef> {
    if fs == [] then Some(acc)
    else
      match MergeRef(acc, fs[..|fs| - 1])
      case None => None
      case Some(m) => RefField(m, fs[|fs| - 1])
  }

  function RefField(m: WorkflowRef, f: Field): Option<WorkflowRef> {
    if !(f.Len? && (f.num == 1 || f.num == 2)) then Some(m)
    else
      match Decode(f.payload)
      case None => None
      case Some(s) => Some(if f.num == 1 then m.(name := s) else m.(version := s))
  }

  function MergeEnv(acc: EnvVar, fs: seq<Field>): Option<EnvVar> {
    if fs == [] then Some(acc)
    else
      match MergeEnv(acc, fs[..|fs| - 1])
      case None => None
      case Some(m) => EnvField(m, fs[|fs| - 1])
  }

  function EnvField(m: EnvVar, f: Field): Option<EnvVar> {
    if !(f.Len? && (f.num == 1 || f.num == 2)) then Some(m)
    else
      match Decode(f.payload)
      case None => None
      case Some(s) => Some(if f.num == 1 then m.(key := s) else m.(value := s))
  }

  function DecodeEnv(b: bytes): Option<EnvVar> {
    match GetFields(b)
    case None => None
    case Some(fs) => MergeEnv(EMPTY_ENV, fs)
  }

  function MergeJob(acc: JobSpec, fs: seq<Field>): Option<JobSpec> {
    if fs == [] then Some(acc)
    else
      match MergeJob(acc, fs[..|fs| - 1])
      case None => None
      case Some(m) => JobField(m, fs[|fs| - 1])
  }

  function JobField(m: JobSpec, f: Field): Option<JobSpec> {
    if !(f.Len? && 1 <= f.num <= 4) then Some(m)
    else if f.num == 2 then
      match DecodeEnv(f.payload)
      case None => None
      case Some(e) => Some(m.(env := m.env + [e]))
    else
      match Decode(f.payload)
      case None => None
      case Some(s) =>
        Some(if f.num == 1 then m.(commands := m.commands + [s])
             else if f.num == 3 then m.(secrets := m.secrets + [s])
             else m.(artifactPaths := m.artifactPaths + [s]))
  }

  function MergeNode(acc: Node, fs: seq<Field>): Option<Node>
    decreases Size(fs), 1
  {
    if fs == [] then Some(acc)
    else
      match MergeNode(acc, fs[..|fs| - 1])
      case None => None
      case Some(m) => NodeField(m, fs[|fs| - 1], Size(fs))
  }

  /** One field of a node; `bound` bounds what the field may hold. */
  function NodeField(m: Node, f: Field, bound: nat): Option<Node>
    requires Weight(f) <= bound
    decreases bound, 0
  {
    if !(f.Len? && 1 <= f.num <= 5) then Some(m)
    else if f.num <= 3 then
      match Decode(f.payload)
      case None => None
      case Some(s) =>
        Some(if f.num == 1 then m.(id := s)
             else if f.num == 2 then m.(dependsOn := m.dependsOn + [s])
             else m.(conditions := m.conditions + [s]))
    else
      match GetFields(f.payload)
      case None => None
      case Some(fs) =>
        if f.num == 4 then
          match MergeJob(if m.kind.Job? then m.kind.job else EMPTY_JOB, fs)
          case None => None
          case Some(j) => Some(m.(kind := Job(j)))
        else
          match MergeStage(if m.kind.Stage? then m.kind.stage else StageSpec([]), fs)
          case None => None
          case Some(s) => Some(m.(kind := Stage(s)))
  }

  function MergeStage(acc: StageSpec, fs: seq<Field>): Option<StageSpec>
    decreases Size(fs), 1
  {
    if fs == [] then Some(acc)
    else
      match MergeStage(acc, fs[..|fs| - 1])
      case None => None
      case Some(m) => StageField(m, fs[|fs| - 1], Size(fs))
  }

  /** One field of a stage; `bound` bounds what the field may hold. */
  function StageField(m: StageSpec, f: Field, bound: nat): Option<StageSpec>
    requires Weight(f) <= bound
    decreases bound, 0
  {
    if !(f.Len? && f.num == 1) then Some(m)
    else
      match GetFields(f.payload)
      case None => None
      case Some(inner) =>
        match MergeNode(EMPTY_NODE, inner)
        case None => None
        case Some(n) => Some(StageSpec(m.jobs + [n]))
  }

  function DecodeNode(b: bytes): Option<Node> {
    match GetFields(b)
    case None => None
    case Some(fs) => MergeNode(EMPTY_NODE, fs)
  }

  function MergeSpec(acc: PipelineSpec, fs: seq<Field>): Option<PipelineSpec> {
    if fs == [] then Some(acc)
    else
      match MergeSpec(acc, fs[..|fs| - 1])
      case None => None
      case Some(m) => SpecField(m, fs[|fs| - 1])
  }

  function SpecField(m: PipelineSpec, f: Field): Option<PipelineSpec> {
    if f.Len? && f.num == 1 then
      match GetFields(f.payload)
      case None => None
      case Some(inner) =>
        match MergeRef(if m.workflow.Some? then m.workflow.value else EMPTY_REF, inner)
        case None => None
        case Some(r) => Some(m.(workflow := Some(r)))
    else if f.Len? && f.num == 2 then
      match DecodeNode(f.payload)
      case None => None
      case Some(n) => Some(m.(nodes := m.nodes + [n]))
    else Some(m)
  }

  function DecodePipelineSpec(b: bytes): Option<PipelineSpec> {
    match GetFields(b)
    case None => None
    case Some(fs) => MergeSpec(EMPTY_SPEC, fs)
  }

  function MergeDAG(acc: WorkflowDAG, fs: seq<Field>): Option<WorkflowDAG> {
    if fs == [] then Some(acc)
    else
      match MergeDAG(acc, fs[..|fs| - 1])
      case None => None
      case Some(m) => DAGField(m, fs[|fs| - 1])
  }

  function DAGField(m: WorkflowDAG, f: Field): Option<WorkflowDAG> {
    if f.Len? && (f.num == 1 || f.num == 2) then
      match Decode(f.payload)
      case None => None
      case Some(s) => Some(if f.num == 1 then m.(name := s) else m.(version := s))
    else if f.Len? && f.num == 3 then
      match DecodeNode(f.payload)
      case None => None
      case Some(n) => Some(m.(nodes := m.nodes + [n]))
    else Some(m)
  }

  function DecodeWorkflowDAG(b: bytes): Option<WorkflowDAG> {
    match GetFields(b)
    case None => None
    case Some(fs) => MergeDAG(EMPTY_DAG, fs)
  }
}
