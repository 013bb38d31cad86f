/** Joining the client's base URL to an operation path: trailing slashes of the base and
    leading slashes of the path are trimmed, and exactly one slash is put between them. */
module Urls {

  predicate EndsWithSlash(s: string) {
    |s| > 0 && s[|s| - 1] == '/'
  }

  predicate StartsWithSlash(s: string) {
    |s| > 0 && s[0] == '/'
  }

  /** A run of n slashes. */
  function Slashes(n: nat): (r: string)
    ensures |r| == n
    ensures forall i | 0 <= i < n :: r[i] == '/'
  {
    seq(n, _ => '/')
  }

  /** `s.rstrip("/")`: the longest prefix of s that does not end with a slash and
      is followed only by slashes. */
  function RStripSlash(s: string): (r: string)
    ensures |r| <= |s| && r == s[..|r|]
    ensures forall i | |r| <= i < |s| :: s[i] == '/'
    ensures !EndsWithSlash(r)
  {
    if EndsWithSlash(s) then RStripSlash(s[..|s| - 1]) else s
  }

  /** `s.lstrip("/")`: the longest suffix of s that does not start with a slash and
      is preceded only by slashes. */
  function LStripSlash(s: string): (r: string)
    ensures |r| <= |s| && r == s[|s| - |r|..]
    ensures forall i | 0 <= i < |s| - |r| :: s[i] == '/'
    ensures !StartsWithSlash(r)
  {
    if StartsWithSlash(s) then LStripSlash(s[1..]) else s
  }

  /** The URL of `path` under `base`. When neither side supplies a slash at the seam, exactly
      one is inserted and nothing else changes. */
  function Join(base: string, path: string): (r: string)
    ensures !EndsWithSlash(base) && !StartsWithSlash(path) ==> r == base + "/" + path
  {
    RStripSlash(base) + "/" + LStripSlash(path)
  }

  lemma {:induction false} RStripAddedSlashes(s: string, m: nat)
    ensures RStripSlash(s + Slashes(m)) == RStripSlash(s)
    decreases m
  {
    if m > 0 {
      var t := s + Slashes(m);
      assert EndsWithSlash(t);
      assert t[..|t| - 1] == s + Slashes(m - 1);
      RStripAddedSlashes(s, m - 1);
    } else {
      assert s + Slashes(m) == s;
    }
  }

  lemma {:induction false} LStripAddedSlashes(s: string, n: nat)
    ensures LStripSlash(Slashes(n) + s) == LStripSlash(s)
    decreases n
  {
    if n > 0 {
      var t := Slashes(n) + s;
      assert StartsWithSlash(t);
      assert t[1..] == Slashes(n - 1) + s;
      LStripAddedSlashes(s, n - 1);
    } else {
      assert Slashes(n) + s == s;
    }
  }

  /** However many slashes either side supplies at the seam, the joined URL is the same. */
  lemma JoinIgnoresSeamSlashes(base: string, path: string, m: nat, n: nat)
    ensures Join(base + Slashes(m), Slashes(n) + path) == Join(base, path)
  {
    RStripAddedSlashes(base, m);
    LStripAddedSlashes(path, n);
  }

  /** Every URL can be read as: the trimmed base, one slash, the trimmed path; the base part
      never ends with a slash and the path part never starts with one. */
  lemma JoinHasOneSeamSlash(base: string, path: string)
    ensures var u := Join(base, path);
      var k := |RStripSlash(base)|;
      k < |u| && u[..k] == RStripSlash(base) && u[k] == '/' && u[k + 1..] == LStripSlash(path)
      && (k == 0 || u[k - 1] != '/') && (k + 1 == |u| || u[k + 1] != '/')
  {
  }

  /** Trimming a base that has already been trimmed changes nothing, so a client that
      stores the trimmed base builds the same URLs as one given the original. */
  lemma JoinTrimmedBase(base: string, path: string)
    ensures Join(RStripSlash(base), path) == Join(base, path)
  {
  }
}
