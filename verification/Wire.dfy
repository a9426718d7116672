/**
 * The wire format of Protocol Buffers, as the Encoding specification defines it in the sections
 * "Base 128 Varints", "Message Structure" and "Length-Delimited Records".
 */
module Wire {
  import opened Messages
  import opened Utf8

  datatype Field =
    | Varint(num: nat, value: nat)
    | Fixed64(num: nat, raw: bytes)
    | Len(num: nat, payload: bytes)
    | Fixed32(num: nat, raw: bytes)

  // ---------------------------------------------------------------------------
  // Writing
  // ---------------------------------------------------------------------------

  /** Seven bits a byte, least significant first, the high bit set on all but the last. */
  function PutVarint(n: nat): (b: bytes)
    ensures |b| >= 1
  {
    if n < 128 then [n] else [128 + n % 128] + PutVarint(n / 128)
  }

  /** A length-delimited record. */
  function PutRecord(num: nat, payload: bytes): bytes {
    PutVarint(8 * num + 2) + PutVarint(|payload|) + payload
  }

  /** The bytes of a list of length-delimited fields. */
  function Serialize(fs: seq<Field>): bytes
    requires forall f :: f in fs ==> f.Len?
  {
    if fs == [] then [] else PutRecord(fs[0].num, fs[0].payload) + Serialize(fs[1..])
  }

  // ---------------------------------------------------------------------------
  // Reading
  // ---------------------------------------------------------------------------

  /** The value of the leading varint and the number of its bytes. */
  function GetVarint(b: bytes): (r: Option<(nat, nat)>)
    ensures r.Some? ==> 1 <= r.value.1 <= |b|
  {
    if b == [] then None
    else if b[0] < 128 then Some((b[0], 1))
    else
      match GetVarint(b[1..])
      case None => None
      case Some((v, n)) => Some((b[0] - 128 + 128 * v, n + 1))
  }

  /** The leading field and the number of its bytes; groups and field number zero are errors. */
  function GetField(b: bytes): (r: Option<(Field, nat)>)
    ensures r.Some? ==> 1 <= r.value.1 <= |b| && Weight(r.value.0) <= r.value.1
  {
    match GetVarint(b)
    case None => None
    case Some((tag, n)) =>
      var num, rest := tag / 8, b[n..];
      if num == 0 then None
      else if tag % 8 == 0 then
        match GetVarint(rest)
        case None => None
        case Some((v, k)) => Some((Varint(num, v), n + k))
      else if tag % 8 == 1 then
        if |rest| < 8 then None else Some((Fixed64(num, rest[..8]), n + 8))
      else if tag % 8 == 2 then
        match GetVarint(rest)
        case None => None
        case Some((len, k)) =>
          if |rest| - k < len then None else Some((Len(num, rest[k..k + len]), n + k + len))
      else if tag % 8 == 5 then
        if |rest| < 4 then None else Some((Fixed32(num, rest[..4]), n + 4))
      else None
  }

  /** All fields of a message. */
  function GetFields(b: bytes): (r: Option<seq<Field>>)
    ensures r.Some? ==> Size(r.value) <= |b|
    decreases |b|
  {
    if b == [] then Some([])
    else
      match GetField(b)
      case None => None
      case Some((f, n)) =>
        match GetFields(b[n..])
        case None => None
        case Some(fs) =>
          SizeCons(f, fs);
          Some([f] + fs)
  }

  /** A measure for nested messages: what a field holds is lighter than the field. */
  function Weight(f: Field): nat {
    1 + if f.Len? then |f.payload| else 0
  }

  function Size(fs: seq<Field>): nat {
    if fs == [] then 0 else Size(fs[..|fs| - 1]) + Weight(fs[|fs| - 1])
  }

  lemma {:induction false} SizeCons(f: Field, fs: seq<Field>)
    ensures Size([f] + fs) == Weight(f) + Size(fs)
  {
    var all := [f] + fs;
    if fs == [] {
      assert all == [f] && [f][..0] == [];
    } else {
      SizeCons(f, fs[..|fs| - 1]);
      assert all[..|all| - 1] == [f] + fs[..|fs| - 1];
    }
  }

  // ---------------------------------------------------------------------------
  // Reading undoes writing
  // ---------------------------------------------------------------------------

  lemma {:induction false} VarintRoundTrip(n: nat, rest: bytes)
    ensures GetVarint(PutVarint(n) + rest) == Some((n, |PutVarint(n)|))
  {
    var b := PutVarint(n) + rest;
    if n >= 128 {
      VarintRoundTrip(n / 128, rest);
      assert b[1..] == PutVarint(n / 128) + rest;
    }
  }

  lemma RecordRoundTrip(num: nat, payload: bytes, rest: bytes)
    requires num > 0
    ensures GetField(PutRecord(num, payload) + rest) == Some((Len(num, payload), |PutRecord(num, payload)|))
  {
    var tag, len := PutVarint(8 * num + 2), PutVarint(|payload|);
    var body := payload + rest;
    Associative(tag + len, payload, rest);
    Associative(tag, len, body);
    VarintRoundTrip(8 * num + 2, len + body);
    DropPrefix(tag, len + body);
    LengthRoundTrip(payload, rest);
  }

  /** The length and the payload behind a tag. */
  lemma LengthRoundTrip(payload: bytes, rest: bytes)
    ensures var len := PutVarint(|payload|);
            var b := len + (payload + rest);
            GetVarint(b) == Some((|payload|, |len|)) && b[|len|..|len| + |payload|] == payload
  {
    VarintRoundTrip(|payload|, payload + rest);
    DropPrefix(PutVarint(|payload|), payload + rest);
  }

  /** Reading the fields back. */
  lemma {:induction false} FieldsRoundTrip(fs: seq<Field>)
    requires forall f :: f in fs ==> f.Len? && f.num > 0
    ensures GetFields(Serialize(fs)) == Some(fs)
  {
    if fs != [] {
      var head, tail := PutRecord(fs[0].num, fs[0].payload), Serialize(fs[1..]);
      RecordRoundTrip(fs[0].num, fs[0].payload, tail);
      DropPrefix(head, tail);
      FieldsRoundTrip(fs[1..]);
      assert [fs[0]] + fs[1..] == fs;
    }
  }

  lemma {:induction false} SerializeAppend(a: seq<Field>, b: seq<Field>)
    requires (forall f :: f in a ==> f.Len?) && (forall f :: f in b ==> f.Len?)
    ensures Serialize(a + b) == Serialize(a) + Serialize(b)
  {
    if a == [] {
      assert a + b == b;
    } else {
      SerializeAppend(a[1..], b);
      assert (a + b)[1..] == a[1..] + b;
      Associative(PutRecord(a[0].num, a[0].payload), Serialize(a[1..]), Serialize(b));
    }
  }
}
