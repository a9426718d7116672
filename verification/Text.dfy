/** String operations shared by the condition parser and the line reader. */
module Text {
  import opened Messages

  function TrimLeft(s: string, space: char -> bool): string {
    if s != [] && space(s[0]) then TrimLeft(s[1..], space) else s
  }

  function TrimRight(s: string, space: char -> bool): string {
    if s != [] && space(s[|s| - 1]) then TrimRight(s[..|s| - 1], space) else s
  }

  function Trim(s: string, space: char -> bool): string {
    TrimRight(TrimLeft(s, space), space)
  }

  /** No white space at either end. */
  predicate Tight(s: string, space: char -> bool) {
    s == [] || (!space(s[0]) && !space(s[|s| - 1]))
  }

  lemma {:induction false} TrimLeftIsSuffix(s: string, space: char -> bool)
    ensures |TrimLeft(s, space)| <= |s| && TrimLeft(s, space) == s[|s| - |TrimLeft(s, space)|..]
    ensures TrimLeft(s, space) != [] ==> !space(TrimLeft(s, space)[0])
  {
    if s != [] && space(s[0]) {
      TrimLeftIsSuffix(s[1..], space);
    }
  }

  lemma {:induction false} TrimRightIsPrefix(s: string, space: char -> bool)
    ensures TrimRight(s, space) <= s
    ensures TrimRight(s, space) != [] ==> !space(TrimRight(s, space)[|TrimRight(s, space)| - 1])
  {
    if s != [] && space(s[|s| - 1]) {
      TrimRightIsPrefix(s[..|s| - 1], space);
    }
  }

  /** Trimming yields a tight string, and changes exactly the strings that are not tight. */
  lemma TrimTight(s: string, space: char -> bool)
    ensures Tight(Trim(s, space), space)
    ensures Trim(s, space) == s <==> Tight(s, space)
  {
    var l := TrimLeft(s, space);
    TrimLeftIsSuffix(s, space);
    TrimRightIsPrefix(l, space);
  }

  predicate AllSpace(s: string, space: char -> bool) {
    forall c :: c in s ==> space(c)
  }

  lemma {:induction false} TrimLeftPadded(a: string, s: string, space: char -> bool)
    requires AllSpace(a, space) && (s == [] || !space(s[0]))
    ensures TrimLeft(a + s, space) == s
  {
    if a == [] {
      AppendEmpty(s);
    } else {
      assert a[0] in a && (a + s)[0] == a[0] && (a + s)[1..] == a[1..] + s;
      TrimLeftPadded(a[1..], s, space);
    }
  }

  lemma {:induction false} TrimRightPadded(s: string, b: string, space: char -> bool)
    requires AllSpace(b, space) && (s == [] || !space(s[|s| - 1]))
    ensures TrimRight(s + b, space) == s
  {
    if b == [] {
      AppendEmpty(s);
    } else {
      LastOfAppend(s, b);
      assert b[|b| - 1] in b;
      TrimRightPadded(s, b[..|b| - 1], space);
    }
  }

  lemma {:induction false} TrimLeftAll(a: string, space: char -> bool)
    requires AllSpace(a, space)
    ensures TrimLeft(a, space) == []
  {
    AppendEmpty(a);
    TrimLeftPadded(a, [], space);
  }

  /** Trimming takes the white space off both ends and nothing else. */
  lemma TrimPadded(a: string, s: string, b: string, space: char -> bool)
    requires AllSpace(a, space) && AllSpace(b, space) && Tight(s, space)
    ensures Trim(a + s + b, space) == s
  {
    if s == [] {
      AppendEmpty(a);
      TrimLeftAll(a + b, space);
    } else {
      Associative(a, s, b);
      TrimLeftPadded(a, s + b, space);
      TrimRightPadded(s, b, space);
    }
  }

  /** `sep` stands in `s` from position `k` on. */
  predicate OccursAt(s: string, sep: string, k: nat) {
    k + |sep| <= |s| && s[k..k + |sep|] == sep
  }

  /** The start of the first occurrence of `sep` in `s`. */
  function Find(s: string, sep: string): (r: Option<nat>)
    ensures r.Some? ==> OccursAt(s, sep, r.value) && forall k: nat :: k < r.value ==> !OccursAt(s, sep, k)
    ensures r == None ==> forall k :: !OccursAt(s, sep, k)
  {
    if OccursAt(s, sep, 0) then Some(0)
    else if s == [] then None
    else
      assert forall k: nat :: k >= 1 && OccursAt(s, sep, k) ==> OccursAt(s[1..], sep, k - 1) by {
        forall k: nat | k >= 1 && OccursAt(s, sep, k)
          ensures OccursAt(s[1..], sep, k - 1)
        {
          assert s[1..][k - 1..k - 1 + |sep|] == s[k..k + |sep|];
        }
      }
      match Find(s[1..], sep)
      case None => None
      case Some(i) =>
        assert s[1..][i..i + |sep|] == s[i + 1..i + 1 + |sep|];
        Some(i + 1)
  }

  predicate HasSuffix(s: string, t: string) {
    |t| <= |s| && s[|s| - |t|..] == t
  }
}
