/**
 The traceparent that carries a trace id over the queue hop (sections 3.2.2.3 and 3.2.2.5 of W3C Trace
 Context): any text is coerced to a valid id, and what is formatted is what is parsed back.
 */
module TraceContext {
  import opened Options
  import opened Text

  const WIDTH: nat := 32

  function Lower(c: char): char
  {
    if 'A' <= c <= 'Z' then c - 'A' + 'a' else c
  }

  /** The hex digits of a text, lower-cased, in order. */
  function HexOnly(s: string): string
  {
    if s == [] then []
    else if IsHex(Lower(s[0])) then [Lower(s[0])] + HexOnly(s[1..])
    else HexOnly(s[1..])
  }

  function Zeros(n: nat): string
  {
    seq(n, _ => '0')
  }

  /** Pad with zeros on the right, cut to the width. */
  function Fit(s: string): string
  {
    if |s| < WIDTH then s + Zeros(WIDTH - |s|) else s[..WIDTH]
  }

  predicate AllZero(s: string)
  {
    forall i | 0 <= i < |s| :: s[i] == '0'
  }

  /** A valid trace id: 32 lower-case hex digits, not all zero. */
  predicate TraceId(s: string)
  {
    |s| == WIDTH && Hex(s) && !AllZero(s)
  }

  /** `random` is the 32 hex digits drawn when nothing usable is left. */
  function Normalise(traceId: string, random: string): string
  {
    var fitted := Fit(HexOnly(traceId));
    if AllZero(fitted) then random else fitted
  }

  function Format(traceId: string, random: string, span: string): string
  {
    "00-" + Normalise(traceId, random) + "-" + span + "-01"
  }

  function Parse(traceparent: Option<string>): Option<string>
  {
    if traceparent.None? || traceparent.value == "" then None
    else
      var parts := Split(traceparent.value, '-');
      if |parts| >= 4 && TraceId(parts[1]) then Some(parts[1]) else None
  }

  // ---------------------------------------------------------------- laws

  lemma {:induction false} HexOnlyIsHex(s: string)
    ensures forall i | 0 <= i < |HexOnly(s)| :: IsHex(HexOnly(s)[i])
  {
    if s != [] {
      HexOnlyIsHex(s[1..]);
    }
  }

  /** Text that is already lower-case hex loses nothing. */
  lemma {:induction false} HexOnlyKeeps(s: string)
    requires forall i | 0 <= i < |s| :: IsHex(s[i])
    ensures HexOnly(s) == s
  {
    if s != [] {
      HexOnlyKeeps(s[1..]);
      assert s == [s[0]] + s[1..];
    }
  }

  lemma FitIsHex(s: string)
    requires forall i | 0 <= i < |s| :: IsHex(s[i])
    ensures |Fit(s)| == WIDTH && Hex(Fit(s))
  {
  }

  /** Whatever comes in, what goes out is a valid trace id, given that the fallback is one. */
  lemma NormalisedIsValid(traceId: string, random: string)
    requires TraceId(random)
    ensures TraceId(Normalise(traceId, random))
  {
    HexOnlyIsHex(traceId);
    FitIsHex(HexOnly(traceId));
  }

  lemma ValidIdIsFixed(traceId: string, random: string)
    requires TraceId(traceId)
    ensures Normalise(traceId, random) == traceId
  {
    HexOnlyKeeps(traceId);
    assert traceId[..WIDTH] == traceId;
  }

  /** Normalising twice is normalising once. */
  lemma NormaliseIsIdempotent(traceId: string, random: string, random': string)
    requires TraceId(random)
    ensures Normalise(Normalise(traceId, random), random') == Normalise(traceId, random)
  {
    NormalisedIsValid(traceId, random);
    ValidIdIsFixed(Normalise(traceId, random), random');
  }

  lemma SplitFormatted(id: string, span: string)
    requires Lacks(id, '-') && Lacks(span, '-')
    ensures Split("00-" + id + "-" + span + "-01", '-') == ["00", id, span, "01"]
  {
    var s := "00-" + id + "-" + span + "-01";
    assert s == "00" + ['-'] + (id + ['-'] + (span + ['-'] + "01"));
    SplitPiece("00", id + ['-'] + (span + ['-'] + "01"), '-');
    SplitPiece(id, span + ['-'] + "01", '-');
    SplitPiece(span, "01", '-');
    SplitLast("01", '-');
  }

  /**
   The round trip, for every input text: parsing what was formatted gives back the normalised id exactly
   when that id is not all zero, which only an all-zero random draw can make it.
   */
  lemma RoundTrip(traceId: string, random: string, span: string)
    requires |random| == WIDTH && Hex(random) && Hex(span)
    ensures Parse(Some(Format(traceId, random, span)))
         == if AllZero(Normalise(traceId, random)) then None else Some(Normalise(traceId, random))
    ensures AllZero(Normalise(traceId, random)) ==> AllZero(random)
  {
    var id := Normalise(traceId, random);
    HexOnlyIsHex(traceId);
    FitIsHex(HexOnly(traceId));
    assert |id| == WIDTH && Hex(id);
    assert Lacks(id, '-') && Lacks(span, '-');
    SplitFormatted(id, span);
  }

  /** The hex digits of the input survive as the prefix of its id. */
  lemma DigitsSurvive(traceId: string, random: string)
    requires !AllZero(Fit(HexOnly(traceId)))
    ensures var digits := HexOnly(traceId);
            var id := Normalise(traceId, random);
            if |digits| <= WIDTH then digits <= id && AllZero(id[|digits|..]) else id == digits[..WIDTH]
  {
  }
}
