/** File-name normalisation of code/index.js line 103: `fileName.replace(/^.*:\/\//, "")`.
    The regular expression is anchored at the start, `.` matches any character except a
    line terminator, and `.*` is greedy, so the match is the LONGEST prefix that ends in
    "://" and contains no line terminator; the result is what follows it. */
module FileNames {

  /** The characters JavaScript's `.` does not match. */
  predicate IsLineTerminator(c: char)
  {
    c == '\n' || c == '\r' || c == '\U{2028}' || c == '\U{2029}'
  }

  /** `^.*://` matches exactly the prefix `s[..k]`. */
  predicate SchemeMatch(s: string, k: int)
  {
    3 <= k <= |s| && s[k - 3..k] == "://" && forall j :: 0 <= j < k ==> !IsLineTerminator(s[j])
  }

  /** End of the longest match of `^.*://` among the prefixes `s[..m]` with `m <= k`,
      or 0 when there is none (a match is never shorter than 3). */
  function LongestMatch(s: string, k: nat): (r: nat)
    requires k <= |s|
    ensures r <= k
    ensures r == 0 || SchemeMatch(s, r)
    ensures forall m :: r < m <= k ==> !SchemeMatch(s, m)
  {
    if k < 3 then 0
    else if SchemeMatch(s, k) then k
    else LongestMatch(s, k - 1)
  }

  /** The normalised file name: everything up to and including the last "://" of the
      first line removed; the name unchanged when there is none. */
  function StripScheme(s: string): (r: string)
    ensures |r| <= |s| && r == s[|s| - |r|..]
    ensures (|r| == |s|) <==> (forall m :: !SchemeMatch(s, m))
    ensures |r| < |s| ==> SchemeMatch(s, |s| - |r|)
    ensures forall m :: !SchemeMatch(r, m)
  {
    var k := LongestMatch(s, |s|);
    var r := s[k..];
    assert forall m :: SchemeMatch(r, m) ==> SchemeMatch(s, k + m) by {
      forall m | SchemeMatch(r, m) ensures SchemeMatch(s, k + m) {
        assert s[k + m - 3..k + m] == r[m - 3..m];
        forall j | 0 <= j < k + m ensures !IsLineTerminator(s[j]) {
          if j >= k {
            assert s[j] == r[j - k];
          }
        }
      }
    }
    r
  }

  /** Normalising twice is normalising once. */
  lemma StripSchemeIdempotent(s: string)
    ensures StripScheme(StripScheme(s)) == StripScheme(s)
  {
    var r := StripScheme(s);
    assert forall m :: !SchemeMatch(r, m);
  }

  /** A URL-style name keeps only its path: "file:///a/b.js" becomes "/a/b.js". */
  lemma StripFileUrl()
    ensures StripScheme("file:///a/b.js") == "/a/b.js"
  {
    var s := "file:///a/b.js";
    assert SchemeMatch(s, 7);
    var r := StripScheme(s);
    assert |r| <= 7;
    assert s[7..] == "/a/b.js";
    forall m | 7 < m <= |s| ensures !SchemeMatch(s, m) {
      assert s[m - 3..m][0] == s[m - 3];
      assert s[m - 3] != ':' by {
        assert 5 <= m - 3 < |s| - 2;
        assert forall j :: 5 <= j < |s| ==> s[j] != ':';
      }
    }
  }
}
