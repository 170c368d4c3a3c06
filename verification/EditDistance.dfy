/** Levenshtein distance: the two-row program, the recursive distance it computes, the
    shortest edit scripts that distance counts, and the metric laws. */
module EditDistance {
  import opened Options

  function Min(x: nat, y: nat): nat { if x < y then x else y }

  function Differ(c: char, d: char): nat { if c == d then 0 else 1 }

  function Front(s: string): string
    requires s != []
  {
    s[..|s| - 1]
  }

  function Last(s: string): char
    requires s != []
  {
    s[|s| - 1]
  }

  function Distance(a: string, b: string): nat
    decreases |a| + |b|
  {
    if a == [] then |b|
    else if b == [] then |a|
    else Min(Min(Distance(Front(a), b) + 1, Distance(a, Front(b)) + 1),
             Distance(Front(a), Front(b)) + Differ(Last(a), Last(b)))
  }

  // ----- a metric -----------------------------------------------------------------

  lemma {:induction false} Symmetric(a: string, b: string)
    ensures Distance(a, b) == Distance(b, a)
    decreases |a| + |b|
  {
    if a != [] && b != [] {
      Symmetric(Front(a), b);
      Symmetric(a, Front(b));
      Symmetric(Front(a), Front(b));
    }
  }

  lemma {:induction false} ZeroToItself(a: string)
    ensures Distance(a, a) == 0
  {
    if a != [] { ZeroToItself(Front(a)); }
  }

  lemma {:induction false} ZeroIffEqual(a: string, b: string)
    ensures Distance(a, b) == 0 <==> a == b
    decreases |a| + |b|
  {
    if a == b {
      ZeroToItself(a);
    } else if a != [] && b != [] {
      ZeroIffEqual(Front(a), Front(b));
      assert a == Front(a) + [Last(a)] && b == Front(b) + [Last(b)];
    }
  }

  lemma {:induction false} LengthBounds(a: string, b: string)
    ensures |a| <= |b| + Distance(a, b) && |b| <= |a| + Distance(a, b)
    ensures Distance(a, b) <= if |a| < |b| then |b| else |a|
    decreases |a| + |b|
  {
    if a != [] && b != [] {
      LengthBounds(Front(a), b);
      LengthBounds(a, Front(b));
      LengthBounds(Front(a), Front(b));
    }
  }

  lemma {:induction false} Triangle(a: string, b: string, c: string)
    ensures Distance(a, c) <= Distance(a, b) + Distance(b, c)
    decreases |a| + |b| + |c|
  {
    if a == [] || b == [] || c == [] {
      LengthBounds(a, b);
      LengthBounds(b, c);
      LengthBounds(a, c);
    } else {
      var a', b', c' := Front(a), Front(b), Front(c);
      if Distance(a, b) == Distance(a', b) + 1 {
        Triangle(a', b, c);
      } else if Distance(b, c) == Distance(b, c') + 1 {
        Triangle(a, b, c');
      } else if Distance(a, b) == Distance(a, b') + 1 {
        if Distance(b, c) == Distance(b', c) + 1 { Triangle(a, b', c); } else { Triangle(a, b', c'); }
      } else {
        if Distance(b, c) == Distance(b', c) + 1 { Triangle(a', b', c); } else { Triangle(a', b', c'); }
      }
    }
  }

  // ----- shortest edit scripts ----------------------------------------------------

  datatype Edit = Insert(at: nat, c: char) | Delete(at: nat) | Replace(at: nat, c: char)

  predicate Fits(e: Edit, s: string) {
    match e
    case Insert(i, _) => i <= |s|
    case Delete(i) => i < |s|
    case Replace(i, _) => i < |s|
  }

  function Apply(e: Edit, s: string): string
    requires Fits(e, s)
  {
    match e
    case Insert(i, c) => s[..i] + [c] + s[i..]
    case Delete(i) => s[..i] + s[i + 1..]
    case Replace(i, c) => s[..i] + [c] + s[i + 1..]
  }

  /** The text that a script of edits makes of `s`, if every edit fits. */
  function Edited(s: string, script: seq<Edit>): Option<string>
    decreases |script|
  {
    if script == [] then Some(s)
    else if !Fits(script[0], s) then None
    else Edited(Apply(script[0], s), script[1..])
  }

  lemma {:induction false} CommonSuffix(a: string, b: string, w: string)
    ensures Distance(a + w, b + w) <= Distance(a, b)
    decreases |w|
  {
    if w == [] {
      assert a + w == a && b + w == b;
    } else {
      CommonSuffix(a, b, Front(w));
      assert w == Front(w) + [Last(w)];
      assert Front(a + w) == a + Front(w) && Front(b + w) == b + Front(w);
    }
  }

  /** One edit changes a text by a distance of at most one. */
  lemma OneEdit(e: Edit, s: string)
    requires Fits(e, s)
    ensures Distance(s, Apply(e, s)) <= 1
  {
    hide Distance, Front, Last;
    match e
    case Insert(i, c) =>
      OneMore(s[..i], c, s[i..]);
      assert s == s[..i] + s[i..];
    case Delete(i) =>
      OneMore(s[..i], s[i], s[i + 1..]);
      assert s == s[..i] + [s[i]] + s[i + 1..];
    case Replace(i, c) =>
      OneOther(s[..i], s[i], c, s[i + 1..]);
      assert s == s[..i] + [s[i]] + s[i + 1..];
  }

  lemma OneMore(u: string, c: char, w: string)
    ensures Distance(u + w, u + [c] + w) <= 1 && Distance(u + [c] + w, u + w) <= 1
  {
    ZeroToItself(u);
    assert Front(u + [c]) == u;
    assert Distance(u, u + [c]) <= 1;
    hide Distance;
    Symmetric(u, u + [c]);
    CommonSuffix(u, u + [c], w);
    CommonSuffix(u + [c], u, w);
  }

  lemma OneOther(u: string, c: char, d: char, w: string)
    ensures Distance(u + [c] + w, u + [d] + w) <= 1
  {
    ZeroToItself(u);
    assert Front(u + [c]) == u && Front(u + [d]) == u;
    assert Distance(u + [c], u + [d]) <= 1;
    hide Distance;
    CommonSuffix(u + [c], u + [d], w);
  }

  /** No script is shorter than the distance. */
  lemma {:induction false} NoShorterScript(s: string, script: seq<Edit>)
    requires Edited(s, script).Some?
    ensures Distance(s, Edited(s, script).value) <= |script|
    decreases |script|
  {
    if script == [] {
      ZeroToItself(s);
    } else {
      var t := Apply(script[0], s);
      OneEdit(script[0], s);
      NoShorterScript(t, script[1..]);
      Triangle(s, t, Edited(s, script).value);
    }
  }

  lemma FirstEdit(s: string, e: Edit, rest: seq<Edit>)
    ensures Edited(s, [e] + rest) == if Fits(e, s) then Edited(Apply(e, s), rest) else None
  {}

  lemma {:induction false} EditedTwice(s: string, one: seq<Edit>, two: seq<Edit>)
    requires Edited(s, one).Some?
    ensures Edited(s, one + two) == Edited(Edited(s, one).value, two)
    decreases |one|
  {
    hide Edited, Apply, Fits;
    if one == [] {
      EditedByNothing(s);
      assert one + two == two;
    } else {
      var e, rest := one[0], one[1..];
      assert one == [e] + rest && one + two == [e] + (rest + two);
      FirstEdit(s, e, rest);
      FirstEdit(s, e, rest + two);
      EditedTwice(Apply(e, s), rest, two);
    }
  }

  lemma EditedByNothing(s: string)
    ensures Edited(s, []) == Some(s)
  {}

  lemma {:induction false} EditedBefore(s: string, c: char, script: seq<Edit>)
    requires Edited(s, script).Some?
    ensures Edited(s + [c], script) == Some(Edited(s, script).value + [c])
    decreases |script|
  {
    if script != [] {
      EditedBefore(Apply(script[0], s), c, script[1..]);
      assert Apply(script[0], s + [c]) == Apply(script[0], s) + [c];
    }
  }

  /** A shortest script, read off the distance. */
  function Script(a: string, b: string): (script: seq<Edit>)
    ensures |script| == Distance(a, b)
    decreases |a| + |b|
  {
    if a == [] && b == [] then []
    else if b == [] || (a != [] && Distance(a, b) == Distance(Front(a), b) + 1) then
      [Delete(|a| - 1)] + Script(Front(a), b)
    else if a == [] || Distance(a, b) == Distance(a, Front(b)) + 1 then
      Script(a, Front(b)) + [Insert(|b| - 1, Last(b))]
    else if Last(a) == Last(b) then Script(Front(a), Front(b))
    else [Replace(|a| - 1, Last(b))] + Script(Front(a), Front(b))
  }

  /** That script turns one text into the other: the distance is the length of a
      shortest script. */
  lemma {:induction false} ScriptEdits(a: string, b: string)
    ensures Edited(a, Script(a, b)) == Some(b)
    decreases |a| + |b|
  {
    hide Distance, Edited, Fits, Apply, Front, Last;
    if a == [] && b == [] {
      EditedByNothing([]);
    } else if b == [] || (a != [] && Distance(a, b) == Distance(Front(a), b) + 1) {
      FrontIsShorter(a);
      ScriptEdits(Front(a), b);
      DeleteLast(a, Script(Front(a), b), b);
    } else if a == [] || Distance(a, b) == Distance(a, Front(b)) + 1 {
      FrontIsShorter(b);
      ScriptEdits(a, Front(b));
      EditLast(a, Script(a, Front(b)), b);
    } else {
      FrontIsShorter(a);
      FrontIsShorter(b);
      ScriptEdits(Front(a), Front(b));
      KeepOrReplaceLast(a, Script(Front(a), Front(b)), b);
    }
  }

  lemma FrontIsShorter(s: string)
    requires s != []
    ensures |Front(s)| < |s|
  {}

  lemma DeleteLast(a: string, rest: seq<Edit>, b: string)
    requires a != [] && Edited(Front(a), rest) == Some(b)
    ensures Edited(a, [Delete(|a| - 1)] + rest) == Some(b)
  {
    FirstEdit(a, Delete(|a| - 1), rest);
    assert Apply(Delete(|a| - 1), a) == Front(a);
  }

  lemma KeepOrReplaceLast(a: string, rest: seq<Edit>, b: string)
    requires a != [] && b != [] && Edited(Front(a), rest) == Some(Front(b))
    ensures Edited(a, if Last(a) == Last(b) then rest else [Replace(|a| - 1, Last(b))] + rest) == Some(b)
  {
    hide Edited, Front, Last, Fits, Apply;
    FrontAndLast(a);
    FrontAndLast(b);
    EditedBefore(Front(a), Last(b), rest);
    ReplaceLast(a, Last(b), rest);
  }

  lemma FrontAndLast(s: string)
    requires s != []
    ensures s == Front(s) + [Last(s)]
  {}

  lemma ReplaceLast(a: string, c: char, rest: seq<Edit>)
    requires a != []
    ensures Edited(a, [Replace(|a| - 1, c)] + rest) == Edited(Front(a) + [c], rest)
  {
    FirstEdit(a, Replace(|a| - 1, c), rest);
    hide Edited;
    assert Apply(Replace(|a| - 1, c), a) == Front(a) + [c];
  }

  lemma EditLast(a: string, script: seq<Edit>, b: string)
    requires b != [] && Edited(a, script) == Some(Front(b))
    ensures Edited(a, script + [Insert(|b| - 1, Last(b))]) == Some(b)
  {
    var e := Insert(|b| - 1, Last(b));
    EditedTwice(a, script, [e]);
    FirstEdit(Front(b), e, []);
    assert [e] + [] == [e];
    assert Apply(e, Front(b)) == b;
  }

  // ----- the program --------------------------------------------------------------

  /** The distance of two prefixes: one cell of the table. */
  function Cell(a: string, b: string, i: nat, j: nat): nat
    requires i <= |a| && j <= |b|
  {
    Distance(a[..i], b[..j])
  }

  lemma Edges(a: string, b: string, i: nat, j: nat)
    requires i <= |a| && j <= |b|
    ensures Cell(a, b, 0, j) == j && Cell(a, b, i, 0) == i
    ensures Cell(a, b, |a|, |b|) == Distance(a, b)
  {
    assert a[..0] == [] && b[..0] == [];
    assert a[..|a|] == a && b[..|b|] == b;
  }

  lemma Inside(a: string, b: string, i: nat, j: nat)
    requires 0 < i <= |a| && 0 < j <= |b|
    ensures Cell(a, b, i, j)
         == Min(Min(Cell(a, b, i - 1, j) + 1, Cell(a, b, i, j - 1) + 1),
                Cell(a, b, i - 1, j - 1) + Differ(a[i - 1], b[j - 1]))
  {
    assert Front(a[..i]) == a[..i - 1] && Front(b[..j]) == b[..j - 1];
  }

  /** The two-row program computes the recursive distance. */
  method ComputeDistance(a: string, b: string) returns (n: nat)
    ensures n == Distance(a, b)
  {
    ZeroToItself(a);
    Edges(a, b, 0, 0);
    hide Distance, Cell, Min, Differ;
    if a == b { return 0; }
    if a == "" { Edges(a, b, 0, |b|); return |b|; }
    if b == "" { Edges(a, b, |a|, 0); return |a|; }
    var prev := seq(|b| + 1, j requires 0 <= j => j);
    forall j | 0 <= j <= |b| ensures prev[j] == Cell(a, b, 0, j) { Edges(a, b, 0, j); }
    for i := 1 to |a| + 1
      invariant |prev| == |b| + 1
      invariant forall j :: 0 <= j <= |b| ==> prev[j] == Cell(a, b, i - 1, j)
    {
      Edges(a, b, i, 0);
      var cur := [i];
      for j := 1 to |b| + 1
        invariant |cur| == j
        invariant forall k :: 0 <= k < j ==> cur[k] == Cell(a, b, i, k)
      {
        Inside(a, b, i, j);
        cur := cur + [Min(Min(prev[j] + 1, cur[j - 1] + 1), prev[j - 1] + Differ(a[i - 1], b[j - 1]))];
      }
      prev := cur;
    }
    return prev[|b|];
  }

  /** Character error rate of normalised texts; absent for an empty reference. */
  method CharacterErrorRate(r: string, h: string) returns (rate: Option<real>)
    ensures rate.None? <==> r == []
    ensures rate.Some? ==> rate.value == Rate(r, h)
    ensures rate.Some? ==> (rate.value == 0.0 <==> r == h)
  {
    if r == "" { return None; }
    var n := ComputeDistance(r, h);
    ZeroIffEqual(r, h);
    hide Distance;
    ZeroRate(n, |r|);
    return Some(n as real / |r| as real);
  }

  lemma ZeroRate(n: nat, len: nat)
    requires len > 0
    ensures n as real / len as real == 0.0 <==> n == 0
  {}

  // ----- what the rate says -------------------------------------------------------

  /** The character error rate, for a reference that is not empty. */
  function Rate(r: string, h: string): real
    requires r != []
  {
    Distance(r, h) as real / |r| as real
  }

  /** Nothing in one text is right in the other. */
  predicate Strangers(a: string, b: string) { forall c :: c in a ==> c !in b }

  function Longer(a: string, b: string): nat { if |a| < |b| then |b| else |a| }

  lemma {:induction false} StrangersCostAll(a: string, b: string)
    requires Strangers(a, b)
    ensures Distance(a, b) == Longer(a, b)
    decreases |a| + |b|
  {
    if a != [] && b != [] {
      assert Last(a) in a && Last(b) in b;
      assert forall c :: c in Front(a) ==> c in a;
      assert forall c :: c in Front(b) ==> c in b;
      StrangersCostAll(Front(a), b);
      StrangersCostAll(a, Front(b));
      StrangersCostAll(Front(a), Front(b));
    }
  }

  lemma RateOrder(n: nat, len: nat)
    requires len > 0
    ensures n as real / len as real <= 1.0 <==> n <= len
    ensures n as real / len as real >= 1.0 <==> n >= len
  {
    var q, l := n as real / len as real, len as real;
    assert q * l == n as real;
    if q > 1.0 { assert (q - 1.0) * l > 0.0; }
    if q < 1.0 { assert (1.0 - q) * l > 0.0; }
  }

  /** A text that is entirely wrong has the documented rate of one exactly if it is no
      longer than its reference; a longer one has a greater rate. */
  lemma EntirelyWrongIsOneIff(r: string, h: string)
    requires r != [] && Strangers(r, h)
    ensures Rate(r, h) == 1.0 <==> |h| <= |r|
    ensures Rate(r, h) > 1.0 <==> |h| > |r|
  {
    StrangersCostAll(r, h);
    hide Distance;
    RateOrder(Distance(r, h), |r|);
  }

  /** No text that is no longer than its reference has a rate above one. */
  lemma RateAtMostOne(r: string, h: string)
    requires r != [] && |h| <= |r|
    ensures Rate(r, h) <= 1.0
  {
    LengthBounds(r, h);
    hide Distance;
    RateOrder(Distance(r, h), |r|);
  }

  /** One character against three others. */
  lemma RateAboveOne()
    ensures Rate("a", "bcd") == 3.0
  {
    StrangersCostAll("a", "bcd");
    hide Distance;
  }
}
