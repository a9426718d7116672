/** The very bytes of a specification and of a workflow that use every field. */
module ProtoSample {
  import opened Messages
  import opened Utf8
  import opened Wire
  import opened Proto

  const ENV := EnvVar("k", "v")
  const JOB := JobSpec(["d"], [ENV], ["s"], ["p"])
  const WITH_JOB := SdkNode("a", ["b"], [""], Some(JOB), None)
  const INNER := SdkNode("i", [], [], None, None)
  const WITH_STAGE := SdkNode("b", [], [], None, Some(SdkStage([INNER])))
  const REF := WorkflowRef("w", "2")

  const ENV_BYTES: bytes := [10, 1, 107, 18, 1, 118]
  const JOB_BYTES: bytes := [10, 1, 100] + ([18, 6] + ENV_BYTES) + [26, 1, 115] + [34, 1, 112]
  const WITH_JOB_BYTES: bytes := [10, 1, 97] + [18, 1, 98] + [26, 0] + ([34, 17] + JOB_BYTES)
  const INNER_BYTES: bytes := [10, 1, 105]
  const WITH_STAGE_BYTES: bytes := [10, 1, 98] + ([42, 5] + ([10, 3] + INNER_BYTES))
  const REF_BYTES: bytes := [10, 1, 119, 18, 1, 50]

  /** A short record with a small number: one byte for the number, one for the length. */
  lemma ShortRecord(num: nat, payload: bytes)
    requires 0 < num < 16 && |payload| < 128
    ensures Serialize([Len(num, payload)]) == [8 * num + 2, |payload|] + payload
  {
    SerializeOne(num, payload);
    assert PutVarint(8 * num + 2) == [8 * num + 2] && PutVarint(|payload|) == [|payload|];
    assert [8 * num + 2] + [|payload|] == [8 * num + 2, |payload|];
  }

  /** A string of one ASCII character, as a field and as the one element of a list. */
  lemma LetterField(num: nat, c: char)
    requires 0 < num < 16 && c < '\U{80}'
    ensures StringFields(num, [[c]]) == StringField(num, [c])
    ensures Serialize(StringField(num, [c])) == [8 * num + 2, 1, c as int]
  {
    EncodingLength("", c);
    assert [[c]][..0] == [];
    ShortRecord(num, [c as int]);
    assert [8 * num + 2, 1] + [c as int] == [8 * num + 2, 1, c as int];
  }

  lemma PairBytes(a: seq<Field>, b: seq<Field>)
    requires Plain(a) && Plain(b)
    ensures Plain(a + b) && Serialize(a + b) == Serialize(a) + Serialize(b)
  {
    SerializeAppend(a, b);
  }

  lemma FourBytes(a: seq<Field>, b: seq<Field>, c: seq<Field>, d: seq<Field>)
    requires Plain(a) && Plain(b) && Plain(c) && Plain(d)
    ensures Plain(a + b + c + d)
    ensures Serialize(a + b + c + d) == Serialize(a) + Serialize(b) + Serialize(c) + Serialize(d)
  {
    PairBytes(a, b);
    PairBytes(a + b, c);
    PairBytes(a + b + c, d);
  }

  lemma EnvBytes()
    ensures Serialize(EnvFields(ENV)) == ENV_BYTES
  {
    LetterField(1, 'k');
    LetterField(2, 'v');
    PairBytes(StringField(1, "k"), StringField(2, "v"));
  }

  lemma RefBytes()
    ensures Serialize(RefFields(REF)) == REF_BYTES
  {
    LetterField(1, 'w');
    LetterField(2, '2');
    PairBytes(StringField(1, "w"), StringField(2, "2"));
  }

  lemma OneEnv(e: EnvVar)
    ensures EnvsFields([e]) == [Len(2, Serialize(EnvFields(e)))]
  {
    assert [e][..0] == [];
  }

  lemma JobBytes()
    ensures Serialize(JobFields(JOB)) == JOB_BYTES
  {
    LetterField(1, 'd');
    EnvBytes();
    OneEnv(ENV);
    ShortRecord(2, ENV_BYTES);
    LetterField(3, 's');
    LetterField(4, 'p');
    FourBytes(StringFields(1, ["d"]), EnvsFields([ENV]), StringFields(3, ["s"]), StringFields(4, ["p"]));
  }

  lemma EmptyElement(num: nat)
    requires 0 < num < 16
    ensures Serialize(StringFields(num, [""])) == [8 * num + 2, 0]
  {
    assert [""][..0] == [];
    assert StringFields(num, [""]) == [Len(num, [])];
    ShortRecord(num, []);
  }

  lemma WithJobBytes()
    ensures Serialize(NodeFields(WITH_JOB)) == WITH_JOB_BYTES
  {
    LetterField(1, 'a');
    LetterField(2, 'b');
    EmptyElement(3);
    JobBytes();
    ShortRecord(4, JOB_BYTES);
    FourBytes(StringField(1, "a"), StringFields(2, ["b"]), StringFields(3, [""]), KindFields(WITH_JOB));
  }

  lemma OneNode(num: nat, n: SdkNode)
    requires num > 0
    ensures NodesFields(num, [n]) == [Len(num, Serialize(NodeFields(n)))]
  {
    assert [n][..0] == [];
  }

  lemma TwoNodes(num: nat, a: SdkNode, b: SdkNode)
    requires num > 0
    ensures NodesFields(num, [a, b]) == [Len(num, Serialize(NodeFields(a)))] + [Len(num, Serialize(NodeFields(b)))]
  {
    OneNode(num, a);
    assert [a, b][..1] == [a];
  }

  lemma InnerBytes()
    ensures Serialize(NodeFields(INNER)) == INNER_BYTES
  {
    LetterField(1, 'i');
    FourBytes(StringField(1, "i"), StringFields(2, []), StringFields(3, []), KindFields(INNER));
  }

  lemma WithStageBytes()
    ensures Serialize(NodeFields(WITH_STAGE)) == WITH_STAGE_BYTES
  {
    LetterField(1, 'b');
    InnerBytes();
    OneNode(1, INNER);
    ShortRecord(1, INNER_BYTES);
    ShortRecord(5, [10, 3] + INNER_BYTES);
    FourBytes(StringField(1, "b"), StringFields(2, []), StringFields(3, []), KindFields(WITH_STAGE));
  }

  lemma SpecBytes()
    ensures Serialize(SpecFields(SdkSpec(REF, [WITH_JOB, WITH_STAGE]))) ==
            ([10, 6] + REF_BYTES) + (([18, 27] + WITH_JOB_BYTES) + ([18, 10] + WITH_STAGE_BYTES))
  {
    RefBytes();
    ShortRecord(1, REF_BYTES);
    WithJobBytes();
    ShortRecord(2, WITH_JOB_BYTES);
    WithStageBytes();
    ShortRecord(2, WITH_STAGE_BYTES);
    TwoNodes(2, WITH_JOB, WITH_STAGE);
    PairBytes([Len(2, WITH_JOB_BYTES)], [Len(2, WITH_STAGE_BYTES)]);
    PairBytes([Len(1, REF_BYTES)], NodesFields(2, [WITH_JOB, WITH_STAGE]));
  }

  lemma DAGBytes()
    ensures Serialize(DAGFields(SdkDAG("w", "2", [WITH_STAGE]))) == REF_BYTES + ([26, 10] + WITH_STAGE_BYTES)
  {
    RefBytes();
    WithStageBytes();
    OneNode(3, WITH_STAGE);
    ShortRecord(3, WITH_STAGE_BYTES);
    PairBytes(RefFields(REF), NodesFields(3, [WITH_STAGE]));
  }
}
