/** Reading text by its separators. */
module Text {

  predicate Lacks(s: string, c: char)
  {
    c !in s
  }

  /** Text up to the first character in `stops`. */
  function UpTo(s: string, stops: set<char>): string
  {
    if s == [] || s[0] in stops then [] else [s[0]] + UpTo(s[1..], stops)
  }

  lemma {:induction false} UpToStops(a: string, b: string, stops: set<char>)
    requires forall c | c in a :: c !in stops
    requires b == [] || b[0] in stops
    ensures UpTo(a + b, stops) == a
  {
    if a == [] {
      assert a + b == b;
    } else {
      assert (a + b)[1..] == a[1..] + b;
      UpToStops(a[1..], b, stops);
      assert [a[0]] + a[1..] == a;
    }
  }

  function Split(s: string, at: char): seq<string>
    decreases |s|
  {
    var head := UpTo(s, {at});
    UpToShorter(s, {at});
    if |head| == |s| then [head] else [head] + Split(s[|head| + 1..], at)
  }

  lemma {:induction false} UpToShorter(s: string, stops: set<char>)
    ensures UpTo(s, stops) <= s
    ensures forall c | c in UpTo(s, stops) :: c !in stops
    ensures |UpTo(s, stops)| < |s| ==> s[|UpTo(s, stops)|] in stops
  {
    if s != [] && s[0] !in stops {
      UpToShorter(s[1..], stops);
      assert s == [s[0]] + s[1..];
    }
  }

  lemma SplitPiece(a: string, b: string, at: char)
    requires Lacks(a, at)
    ensures Split(a + [at] + b, at) == [a] + Split(b, at)
  {
    var s := a + [at] + b;
    assert s == a + ([at] + b);
    UpToStops(a, [at] + b, {at});
    assert s[|a| + 1..] == b;
  }

  lemma SplitLast(a: string, at: char)
    requires Lacks(a, at)
    ensures Split(a, at) == [a]
  {
    UpToStops(a, [], {at});
    assert a + [] == a;
  }

  lemma Field(a: string, b: string, at: char)
    requires Lacks(a, at)
    ensures var s := a + [at] + b; UpTo(s, {at}) == a && |a| < |s| && s[|a| + 1..] == b
  {
    assert a + [at] + b == a + ([at] + b);
    UpToStops(a, [at] + b, {at});
  }

  lemma {:induction false} SplitJoins(s: string, at: char)
    ensures Split(s, at) != [] && (|Split(s, at)| == 1 ==> Split(s, at)[0] == s)
    ensures |Split(s, at)| == 3 ==> s == Split(s, at)[0] + [at] + Split(s, at)[1] + [at] + Split(s, at)[2]
    ensures |Split(s, at)| == 2 ==> s == Split(s, at)[0] + [at] + Split(s, at)[1]
    ensures forall i | 0 <= i < |Split(s, at)| :: Lacks(Split(s, at)[i], at)
    decreases |s|
  {
    var head := UpTo(s, {at});
    UpToShorter(s, {at});
    if |head| < |s| {
      SplitJoins(s[|head| + 1..], at);
      assert s == head + [at] + s[|head| + 1..];
    }
  }

  predicate IsHex(c: char)
  {
    '0' <= c <= '9' || 'a' <= c <= 'f'
  }

  /** A lower-case hex token, as tokens, content versions and trace ids are written. */
  predicate Hex(s: string)
  {
    s != [] && forall i | 0 <= i < |s| :: IsHex(s[i])
  }
}
