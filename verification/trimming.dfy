/** Removal of leading and trailing white space from a string, for an
    arbitrary notion of white space `isWs`. */
module Trimming {

  /** Every character of `t` is white space (vacuously true of ""). */
  predicate AllWs(t: string, isWs: char -> bool) {
    forall k :: 0 <= k < |t| ==> isWs(t[k])
  }

  /** `t` neither starts nor ends with white space. */
  predicate Tight(t: string, isWs: char -> bool) {
    |t| == 0 || (!isWs(t[0]) && !isWs(t[|t| - 1]))
  }

  /** The length of the longest all-white-space prefix of `s`. */
  function LeadingCount(s: string, isWs: char -> bool): (n: nat)
    ensures n <= |s|
    ensures AllWs(s[..n], isWs)
    ensures n < |s| ==> !isWs(s[n])
    decreases |s|
  {
    if |s| == 0 || !isWs(s[0]) then 0
    else
      var n := 1 + LeadingCount(s[1..], isWs);
      assert s[..n] == [s[0]] + s[1..][..n - 1];
      n
  }

  /** The length of the longest all-white-space suffix of `s`. */
  function TrailingCount(s: string, isWs: char -> bool): (n: nat)
    ensures n <= |s|
    ensures AllWs(s[|s| - n..], isWs)
    ensures n < |s| ==> !isWs(s[|s| - 1 - n])
    decreases |s|
  {
    if |s| == 0 || !isWs(s[|s| - 1]) then 0
    else
      var p := s[..|s| - 1];
      var n := 1 + TrailingCount(p, isWs);
      assert s[|s| - n..] == p[|p| - (n - 1)..] + [s[|s| - 1]];
      n
  }

  /** `s` with its leading and then its trailing white space removed: the
      result is tight, and `s` is that result padded on both sides with
      white space only. */
  function Trim(s: string, isWs: char -> bool): (r: string)
    ensures |r| <= |s|
    ensures Tight(r, isWs)
    ensures exists i :: 0 <= i <= |s| - |r| && s[i..i + |r|] == r
                        && AllWs(s[..i], isWs) && AllWs(s[i + |r|..], isWs)
  {
    var a := LeadingCount(s, isWs);
    var t := s[a..];
    var m := |t| - TrailingCount(t, isWs);
    assert s[a..a + m] == t[..m];
    assert s[a + m..] == t[m..];
    t[..m]
  }

  /** A leading count is determined by its contract: it is the index of the
      first non-white-space character, or |s| when there is none. */
  lemma {:induction false} LeadingCountIs(s: string, isWs: char -> bool, k: nat)
    requires k <= |s| && AllWs(s[..k], isWs)
    requires k < |s| ==> !isWs(s[k])
    ensures LeadingCount(s, isWs) == k
    decreases k
  {
    if k > 0 {
      assert s[..k][0] == s[0];
      assert s[1..][..k - 1] == s[..k][1..];
      LeadingCountIs(s[1..], isWs, k - 1);
    }
  }

  /** Symmetric to LeadingCountIs, for the trailing white space. */
  lemma {:induction false} TrailingCountIs(s: string, isWs: char -> bool, k: nat)
    requires k <= |s| && AllWs(s[|s| - k..], isWs)
    requires k < |s| ==> !isWs(s[|s| - 1 - k])
    ensures TrailingCount(s, isWs) == k
    decreases k
  {
    if k > 0 {
      var p := s[..|s| - 1];
      assert s[|s| - k..][k - 1] == s[|s| - 1];
      assert p[|p| - (k - 1)..] == s[|s| - k..][..k - 1];
      TrailingCountIs(p, isWs, k - 1);
    }
  }

  /** Trimming is characterised by its result: padding a tight string with
      white space on either side and trimming gives the string back. */
  lemma TrimOfPadded(w1: string, x: string, w2: string, isWs: char -> bool)
    requires AllWs(w1, isWs) && AllWs(w2, isWs) && Tight(x, isWs)
    ensures Trim(w1 + x + w2, isWs) == x
  {
    var s := w1 + x + w2;
    if |x| == 0 {
      assert s == w1 + w2;
      assert AllWs(s[..|s|], isWs) by {
        forall k | 0 <= k < |s| ensures isWs(s[k]) {
          if k < |w1| { assert s[k] == w1[k]; } else { assert s[k] == w2[k - |w1|]; }
        }
      }
      LeadingCountIs(s, isWs, |s|);
    } else {
      assert s[..|w1|] == w1;
      assert s[|w1|] == x[0];
      LeadingCountIs(s, isWs, |w1|);
      var t := s[|w1|..];
      assert t == x + w2;
      assert t[|t| - |w2|..] == w2;
      assert t[|t| - 1 - |w2|] == x[|x| - 1];
      TrailingCountIs(t, isWs, |w2|);
      assert t[..|x|] == x;
    }
  }

  /** Trimming twice is trimming once. */
  lemma TrimIdempotent(s: string, isWs: char -> bool)
    ensures Trim(Trim(s, isWs), isWs) == Trim(s, isWs)
  {
    var r := Trim(s, isWs);
    assert "" + r + "" == r;
    TrimOfPadded("", r, "", isWs);
  }

  /** Trimming yields "" exactly for the strings made only of white space. */
  lemma TrimEmptyIff(s: string, isWs: char -> bool)
    ensures Trim(s, isWs) == "" <==> AllWs(s, isWs)
  {
    if AllWs(s, isWs) {
      assert s + "" + "" == s;
      TrimOfPadded(s, "", "", isWs);
    }
    if Trim(s, isWs) == "" {
      var i :| 0 <= i <= |s| && s[i..i] == "" && AllWs(s[..i], isWs) && AllWs(s[i..], isWs);
      forall k | 0 <= k < |s| ensures isWs(s[k]) {
        if k < i { assert s[..i][k] == s[k]; } else { assert s[i..][k - i] == s[k]; }
      }
    }
  }
}
