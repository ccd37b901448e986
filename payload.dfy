/**
 * The validation of a Send payload against the pattern `^[0-9A-F]{1,24}$`:
 * one to twenty-four characters, each a decimal digit or an upper-case A to F.
 */
module Payload {

  /** The most characters the `{1,24}` repetition admits. */
  const MaxPayloadLength := 24

  /** The character class `[0-9A-F]`. */
  predicate IsHexDigit(c: char) {
    '0' <= c <= '9' || 'A' <= c <= 'F'
  }

  /** The declarative reading of the pattern. */
  predicate ValidPayload(p: string) {
    1 <= |p| <= MaxPayloadLength && forall i :: 0 <= i < |p| ==> IsHexDigit(p[i])
  }

  /**
   * The pattern as a matcher runs it, anchored at both ends: the class is
   * consumed one character at a time while the repetition budget lasts, and
   * the match succeeds only if the input is exhausted.
   */
  function HexRun(s: string, budget: nat): bool
  {
    if s == [] then true
    else budget > 0 && IsHexDigit(s[0]) && HexRun(s[1..], budget - 1)
  }

  function MatchesSendPattern(p: string): (r: bool)
    ensures r <==> ValidPayload(p)
  {
    HexRunSound(p, MaxPayloadLength);
    p != [] && HexRun(p, MaxPayloadLength)
  }

  lemma {:induction false} HexRunSound(s: string, budget: nat)
    ensures HexRun(s, budget) <==> |s| <= budget && forall i :: 0 <= i < |s| ==> IsHexDigit(s[i])
  {
    if s != [] && budget > 0 {
      HexRunSound(s[1..], budget - 1);
      assert forall i :: 1 <= i < |s| ==> s[i] == s[1..][i - 1];
    }
  }

  /** Inputs the pattern turns away: empty, lower case, a non-hex letter, and one character too many. */
  lemma RejectedPayloads()
    ensures !ValidPayload("")
    ensures !ValidPayload("1a2b")
    ensures !ValidPayload("12G4")
    ensures !ValidPayload("0123456789ABCDEF012345678")
    ensures ValidPayload("0123456789ABCDEF01234567")
  {
    var longest := "0123456789ABCDEF01234567";
    assert |longest| == 24;
    assert !IsHexDigit("1a2b"[1]);
    assert !IsHexDigit("12G4"[2]);
  }
}
