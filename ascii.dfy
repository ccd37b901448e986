/**
 * The `encode('ascii', 'ignore')` step that every dictionary command goes
 * through before it is written to the serial line: characters whose code
 * point is 128 or above are silently dropped, the others are kept in order.
 */
module Ascii {

  predicate IsAscii(c: char) {
    c as int < 128
  }

  predicate AllAscii(s: string) {
    forall i :: 0 <= i < |s| ==> IsAscii(s[i])
  }

  /** Drops every non-ASCII character of `s`, keeping the rest in order. */
  function AsciiFilter(s: string): (r: string)
    ensures AllAscii(r)
    ensures |r| <= |s|
    ensures forall i :: 0 <= i < |r| ==> r[i] in s
  {
    if s == [] then []
    else if IsAscii(s[0]) then [s[0]] + AsciiFilter(s[1..])
    else AsciiFilter(s[1..])
  }

  /** Filtering distributes over concatenation: the kept characters stay in their original order. */
  lemma {:induction false} AsciiFilterAppend(a: string, b: string)
    ensures AsciiFilter(a + b) == AsciiFilter(a) + AsciiFilter(b)
  {
    if a == [] {
      assert a + b == b;
    } else {
      assert (a + b)[0] == a[0];
      assert (a + b)[1..] == a[1..] + b;
      AsciiFilterAppend(a[1..], b);
    }
  }

  /** A string is left untouched exactly when it is already all ASCII. */
  lemma {:induction false} AsciiFilterIdentity(s: string)
    ensures AsciiFilter(s) == s <==> AllAscii(s)
  {
    if s != [] {
      AsciiFilterIdentity(s[1..]);
      if !IsAscii(s[0]) {
        assert |AsciiFilter(s)| < |s| by { assert |AsciiFilter(s[1..])| <= |s[1..]|; }
      }
    }
  }

  /** Applying the filter twice is the same as applying it once. */
  lemma AsciiFilterIdempotent(s: string)
    ensures AsciiFilter(AsciiFilter(s)) == AsciiFilter(s)
  {
    AsciiFilterIdentity(AsciiFilter(s));
  }

  /** Every ASCII character occurs as often in the result as in the input, every other one never. */
  lemma {:induction false} AsciiFilterCounts(s: string, c: char)
    ensures multiset(AsciiFilter(s))[c] == if IsAscii(c) then multiset(s)[c] else 0
  {
    if s != [] {
      AsciiFilterCounts(s[1..], c);
      assert s == [s[0]] + s[1..];
      assert multiset(s) == multiset([s[0]]) + multiset(s[1..]);
    }
  }
}
