/** The strings of the SDK's language: code units, in which a surrogate may stand alone. */
module Utf16 {
  import opened Messages
  import Utf8

  type Unit = n: int | 0 <= n < 0x10000

  predicate High(n: Unit) { 0xD800 <= n < 0xDC00 }

  predicate Low(n: Unit) { 0xDC00 <= n < 0xE000 }

  /** Every surrogate is one of a pair. */
  predicate Paired(u: seq<Unit>) {
    && (forall i :: 0 <= i < |u| && High(u[i]) ==> i + 1 < |u| && Low(u[i + 1]))
    && (forall i :: 0 <= i < |u| && Low(u[i]) ==> i > 0 && High(u[i - 1]))
  }

  function CharUnits(c: char): (u: seq<Unit>)
    ensures Paired(u) && u != []
  {
    var n := c as int;
    if n < 0x10000 then [n] else [0xD800 + (n - 0x10000) / 1024, 0xDC00 + (n - 0x10000) % 1024]
  }

  function Units(s: string): seq<Unit> {
    if s == [] then [] else CharUnits(s[0]) + Units(s[1..])
  }

  predicate PairFirst(u: seq<Unit>) {
    |u| >= 2 && High(u[0]) && Low(u[1])
  }

  function Pair(h: Unit, l: Unit): char
    requires High(h) && Low(l)
  {
    (0x10000 + (h - 0xD800) * 1024 + (l - 0xDC00)) as char
  }

  /** The scalar values that are encoded: a surrogate on its own is replaced by U+FFFD. */
  function Scalars(u: seq<Unit>): string {
    if u == [] then []
    else if PairFirst(u) then [Pair(u[0], u[1])] + Scalars(u[2..])
    else [if High(u[0]) || Low(u[0]) then '\U{fffd}' else u[0] as char] + Scalars(u[1..])
  }

  lemma PairedAppend(a: seq<Unit>, b: seq<Unit>)
    requires Paired(a) && Paired(b)
    ensures Paired(a + b)
  {
    var u := a + b;
    forall i | 0 <= i < |u|
      ensures High(u[i]) ==> i + 1 < |u| && Low(u[i + 1])
      ensures Low(u[i]) ==> i > 0 && High(u[i - 1])
    {
      if i < |a| {
        assert u[i] == a[i];
      } else {
        assert u[i] == b[i - |a|];
      }
    }
  }

  lemma {:induction false} UnitsPaired(s: string)
    ensures Paired(Units(s))
  {
    if s != [] {
      UnitsPaired(s[1..]);
      PairedAppend(CharUnits(s[0]), Units(s[1..]));
    }
  }

  lemma PairedTail(u: seq<Unit>)
    requires Paired(u) && u != []
    ensures PairFirst(u) ==> Paired(u[2..])
    ensures !PairFirst(u) ==> !High(u[0]) && !Low(u[0]) && Paired(u[1..])
  {
    var t := if PairFirst(u) then u[2..] else u[1..];
    var k := |u| - |t|;
    assert !PairFirst(u) ==> !High(u[0]) && !Low(u[0]);
    forall i | 0 <= i < |t|
      ensures High(t[i]) ==> i + 1 < |t| && Low(t[i + 1])
      ensures Low(t[i]) ==> i > 0 && High(t[i - 1])
    {
      assert t[i] == u[i + k] && u[i + k - 1] == if i > 0 then t[i - 1] else u[k - 1];
    }
  }

  lemma CharUnitsOf(u: seq<Unit>)
    requires u != [] && (PairFirst(u) || (!High(u[0]) && !Low(u[0])))
    ensures PairFirst(u) ==> CharUnits(Pair(u[0], u[1])) == u[..2]
    ensures !PairFirst(u) ==> CharUnits(u[0] as char) == u[..1]
  {
    if PairFirst(u) {
      var n := (u[0] as int - 0xD800) * 1024 + (u[1] as int - 0xDC00);
      assert n / 1024 == u[0] - 0xD800 && n % 1024 == u[1] - 0xDC00;
    }
  }

  lemma {:induction false} PairedSurvives(u: seq<Unit>)
    requires Paired(u)
    ensures Units(Scalars(u)) == u
    decreases |u|
  {
    if u != [] {
      var k := if PairFirst(u) then 2 else 1;
      PairedTail(u);
      CharUnitsOf(u);
      PairedSurvives(u[k..]);
      Cut(u, k);
      var c := Scalars(u)[0];
      DropPrefix([c], Scalars(u[k..]));
      assert Scalars(u) == [c] + Scalars(u[k..]) && ([c] + Scalars(u[k..]))[1..] == Scalars(u[k..]);
    }
  }

  /**
   * Encoding and decoding any string gives its scalar values, and gives back the string itself
   * exactly if every surrogate in it is paired.
   */
  lemma SurvivesIff(u: seq<Unit>)
    ensures Utf8.Decode(Utf8.Encode(Scalars(u))) == Some(Scalars(u))
    ensures Units(Scalars(u)) == u <==> Paired(u)
    ensures Scalars(u) == "" <==> u == []
  {
    Utf8.RoundTrip(Scalars(u));
    UnitsPaired(Scalars(u));
    if Paired(u) {
      PairedSurvives(u);
    }
  }

  /** Paired text is read the same whatever follows it. */
  lemma {:induction false} ScalarsAppend(a: seq<Unit>, b: seq<Unit>)
    requires Paired(a)
    ensures Scalars(a + b) == Scalars(a) + Scalars(b)
    decreases |a|
  {
    if a == [] {
      AppendEmpty(b);
      AppendEmpty(Scalars(b));
    } else {
      var k := if PairFirst(a) then 2 else 1;
      PairedTail(a);
      ScalarsAppend(a[k..], b);
      assert (a + b)[0] == a[0] && (a + b)[k..] == a[k..] + b;
      assert PairFirst(a) <==> PairFirst(a + b);
      var c := if PairFirst(a) then Pair(a[0], a[1]) else a[0] as char;
      Associative([c], Scalars(a[k..]), Scalars(b));
    }
  }

  /** A surrogate on its own becomes the replacement character, wherever it stands behind paired text. */
  lemma LoneSurrogate(a: seq<Unit>, n: Unit, b: seq<Unit>)
    requires Paired(a) && (High(n) || Low(n)) && (b == [] || !(High(n) && Low(b[0])))
    ensures Scalars(a + ([n] + b)) == Scalars(a) + ("\U{fffd}" + Scalars(b))
  {
    var u := [n] + b;
    assert u[0] == n && u[1..] == b && (b != [] ==> u[1] == b[0]);
    ScalarsAppend(a, u);
  }
}
