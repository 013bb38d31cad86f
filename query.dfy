/** The paging query string of `list_sessions` and `list_activities`: `pageSize=` only for a
    truthy size, `pageToken=` only for a non-empty token, in that order, joined by `&`, and
    no `?` at all when neither is present. Also the reading side (split at `?` and `&`) that
    shows the parameters can be recovered from the path. */
module Query {
  import opened Messages

  /** Python truthiness of an optional page size: None and 0 are both absent. */
  predicate SizeGiven(pageSize: Option<int>) {
    pageSize.Some? && pageSize.value != 0
  }

  /** Python truthiness of an optional string: None and "" are both absent. */
  predicate TextGiven(s: Option<string>) {
    s.Some? && s.value != ""
  }

  predicate IsDigit(c: char) {
    '0' <= c <= '9'
  }

  /** The number a string of decimal digits denotes, most significant digit first. */
  function DigitsValue(s: string): int {
    if |s| == 0 then 0 else DigitsValue(s[..|s| - 1]) * 10 + (s[|s| - 1] as int - '0' as int)
  }

  /** The integer a `str(n)` string denotes: an optional minus sign, then decimal digits. */
  function DecimalValue(s: string): int {
    if |s| > 0 && s[0] == '-' then -DigitsValue(s[1..]) else DigitsValue(s)
  }

  /** Decimal digits of a natural number, as `str(n)` writes them. */
  function NatDecimal(n: nat): (r: string)
    ensures |r| > 0
    ensures forall i | 0 <= i < |r| :: IsDigit(r[i])
    ensures r[0] == '0' ==> n == 0 && r == "0"
    ensures DigitsValue(r) == n
  {
    var last := (('0' as int) + n % 10) as char;
    if n < 10 then [last]
    else
      var r := NatDecimal(n / 10) + [last];
      assert r[..|r| - 1] == NatDecimal(n / 10);
      r
  }

  /** `str(n)` of a Python int: a minus sign exactly for a negative value, then the digits of
      its magnitude with no leading zero (only 0 itself is written "0"). */
  function Decimal(n: int): (r: string)
    ensures |r| > 0
    ensures r[0] == '-' <==> n < 0
    ensures r[0] == '-' || IsDigit(r[0])
    ensures forall i | 0 < i < |r| :: IsDigit(r[i])
    ensures n < 0 ==> |r| > 1 && r[1] != '0'
    ensures r[0] == '0' ==> r == "0"
  {
    if n < 0 then
      var r := "-" + NatDecimal(-n);
      assert r[1..] == NatDecimal(-n);
      r
    else NatDecimal(n)
  }

  /** The text `str` writes for n denotes n. */
  lemma DecimalDenotes(n: int)
    ensures DecimalValue(Decimal(n)) == n
  {
    if n < 0 {
      assert Decimal(n)[1..] == NatDecimal(-n);
    }
  }

  /** `sep.join(parts)`: the first part comes first. */
  function JoinWith(sep: char, parts: seq<string>): (r: string)
    ensures |parts| > 0 ==> |parts[0]| <= |r| && r[..|parts[0]|] == parts[0]
    decreases |parts|
  {
    if |parts| == 0 then ""
    else if |parts| == 1 then parts[0]
    else parts[0] + [sep] + JoinWith(sep, parts[1..])
  }

  /** Joining parts that hold no separator puts a separator in the result exactly when there
      are at least two parts. */
  lemma JoinWithSeparates(sep: char, parts: seq<string>)
    requires forall i | 0 <= i < |parts| :: sep !in parts[i]
    ensures sep in JoinWith(sep, parts) <==> |parts| > 1
  {
    if |parts| > 1 {
      var r := JoinWith(sep, parts);
      assert r[|parts[0]|] == sep;
    }
  }

  /** `s.split(sep)`: the pieces between separators; never empty, and no piece holds a separator. */
  function SplitOn(sep: char, s: string): (parts: seq<string>)
    ensures |parts| > 0
    ensures forall i | 0 <= i < |parts| :: sep !in parts[i]
    decreases |s|
  {
    if |s| == 0 then [""]
    else
      var rest := SplitOn(sep, s[1..]);
      if s[0] == sep then [""] + rest else [[s[0]] + rest[0]] + rest[1..]
  }

  /** Joining what was split gives back the string. */
  lemma {:induction false} JoinSplit(sep: char, s: string)
    ensures JoinWith(sep, SplitOn(sep, s)) == s
    decreases |s|
  {
    if |s| > 0 {
      var rest := SplitOn(sep, s[1..]);
      JoinSplit(sep, s[1..]);
      if s[0] == sep {
        assert JoinWith(sep, [""] + rest) == "" + [sep] + JoinWith(sep, rest) by {
          assert ([""] + rest)[1..] == rest;
        }
        assert [sep] + s[1..] == s;
      } else {
        var parts := [[s[0]] + rest[0]] + rest[1..];
        if |rest| == 1 {
          assert JoinWith(sep, parts) == [s[0]] + rest[0];
        } else {
          assert parts[1..] == rest[1..];
          assert JoinWith(sep, rest) == rest[0] + [sep] + JoinWith(sep, rest[1..]);
          assert JoinWith(sep, parts) == [s[0]] + rest[0] + [sep] + JoinWith(sep, rest[1..]);
        }
        assert [s[0]] + s[1..] == s;
      }
    }
  }

  /** Splitting a piece that holds no separator, followed by anything, keeps the piece whole
      at the front of the first part. */
  lemma {:induction false} SplitAfterPiece(sep: char, p: string, t: string)
    requires sep !in p
    ensures SplitOn(sep, p + t) == [p + SplitOn(sep, t)[0]] + SplitOn(sep, t)[1..]
    decreases |p|
  {
    if |p| == 0 {
      var parts := SplitOn(sep, t);
      assert p + t == t;
      assert p + parts[0] == parts[0];
      assert [parts[0]] + parts[1..] == parts;
    } else {
      assert (p + t)[1..] == p[1..] + t;
      SplitAfterPiece(sep, p[1..], t);
      assert [p[0]] + (p[1..] + SplitOn(sep, t)[0]) == p + SplitOn(sep, t)[0];
    }
  }

  /** Splitting what was joined gives back the pieces, when none of them holds the separator. */
  lemma {:induction false} SplitJoin(sep: char, parts: seq<string>)
    requires |parts| > 0
    requires forall i | 0 <= i < |parts| :: sep !in parts[i]
    ensures SplitOn(sep, JoinWith(sep, parts)) == parts
    decreases |parts|
  {
    if |parts| == 1 {
      SplitAfterPiece(sep, parts[0], "");
      assert parts[0] + "" == parts[0];
    } else {
      var tail := JoinWith(sep, parts[1..]);
      SplitJoin(sep, parts[1..]);
      assert SplitOn(sep, [sep] + tail) == [""] + parts[1..];
      SplitAfterPiece(sep, parts[0], [sep] + tail);
      assert parts[0] + [sep] + tail == parts[0] + ([sep] + tail);
      assert parts[0] + "" == parts[0];
      assert [parts[0]] + parts[1..] == parts;
    }
  }

  /** The `params` list: `pageSize=` for a truthy size, then `pageToken=` for a non-empty token. */
  function PageParams(pageSize: Option<int>, pageToken: Option<string>): (r: seq<string>)
    ensures |r| == (if SizeGiven(pageSize) then 1 else 0) + (if TextGiven(pageToken) then 1 else 0)
    ensures SizeGiven(pageSize) ==> r[0] == "pageSize=" + Decimal(pageSize.value)
    ensures TextGiven(pageToken) ==> r[|r| - 1] == "pageToken=" + pageToken.value
  {
    (if SizeGiven(pageSize) then ["pageSize=" + Decimal(pageSize.value)] else [])
    + (if TextGiven(pageToken) then ["pageToken=" + pageToken.value] else [])
  }

  /** `path`, followed by `?` and the `&`-joined parameters when there are any. The token is
      inserted as given, without escaping. */
  function Paged(path: string, pageSize: Option<int>, pageToken: Option<string>): (r: string)
    ensures r == path <==> !SizeGiven(pageSize) && !TextGiven(pageToken)
    ensures |path| <= |r| && r[..|path|] == path
  {
    var params := PageParams(pageSize, pageToken);
    if params == [] then path else path + "?" + JoinWith('&', params)
  }

  /** Reading side: the part before the first `?`, and the `&`-separated pieces after it
      (none when there is no `?`). */
  function SplitQuery(s: string): (r: (string, seq<string>))
    decreases |s|
  {
    if |s| == 0 then ("", [])
    else if s[0] == '?' then ("", SplitOn('&', s[1..]))
    else
      var (p, q) := SplitQuery(s[1..]);
      ([s[0]] + p, q)
  }

  lemma {:induction false} SplitQueryOfPath(path: string, query: Option<string>)
    requires '?' !in path
    ensures SplitQuery(if query.Some? then path + "?" + query.value else path)
         == (path, if query.Some? then SplitOn('&', query.value) else [])
    decreases |path|
  {
    var s := if query.Some? then path + "?" + query.value else path;
    if |path| > 0 {
      assert s[0] == path[0];
      assert s[1..] == if query.Some? then path[1..] + "?" + query.value else path[1..];
      SplitQueryOfPath(path[1..], query);
      assert [path[0]] + path[1..] == path;
    } else if query.Some? {
      assert s == "?" + query.value;
      assert s[1..] == query.value;
    }
  }

  /** The value of the first `key=value` piece for `key`. */
  function Lookup(params: seq<string>, key: string): Option<string>
  {
    if |params| == 0 then None
    else if |key| < |params[0]| && params[0][..|key| + 1] == key + "=" then Some(params[0][|key| + 1..])
    else Lookup(params[1..], key)
  }

  /** No parameter piece holds `&` when the token holds none: a page size's text is a sign and
      digits. */
  lemma ParamsHoldNoAmpersand(pageSize: Option<int>, pageToken: Option<string>)
    requires pageToken.Some? ==> '&' !in pageToken.value
    ensures forall i | 0 <= i < |PageParams(pageSize, pageToken)| :: '&' !in PageParams(pageSize, pageToken)[i]
  {
    if SizeGiven(pageSize) {
      DecimalHoldsNoAmpersand(pageSize.value);
    }
  }

  lemma DecimalHoldsNoAmpersand(n: int)
    ensures '&' !in "pageSize=" + Decimal(n)
  {
    var d := Decimal(n);
    forall j | 0 <= j < |d| ensures d[j] != '&' {
      if j > 0 { assert IsDigit(d[j]); }
    }
  }


  /** Splitting the paged path at `?` and `&` gives back the path and the parameter list,
      when the path has no `?` and the token no `&`. */
  lemma PagedSplitsBack(path: string, pageSize: Option<int>, pageToken: Option<string>)
    requires '?' !in path
    requires pageToken.Some? ==> '&' !in pageToken.value
    ensures SplitQuery(Paged(path, pageSize, pageToken)) == (path, PageParams(pageSize, pageToken))
  {
    var params := PageParams(pageSize, pageToken);
    ParamsHoldNoAmpersand(pageSize, pageToken);
    if params == [] {
      SplitQueryOfPath(path, None);
    } else {
      SplitQueryOfPath(path, Some(JoinWith('&', params)));
      SplitJoin('&', params);
    }
  }

  /** Looking the two keys up in the parameter list finds each value exactly when it was given,
      and the `pageSize` entry comes first. */
  lemma LookupPageParams(pageSize: Option<int>, pageToken: Option<string>)
    ensures var params := PageParams(pageSize, pageToken);
      && Lookup(params, "pageSize") == (if SizeGiven(pageSize) then Some(Decimal(pageSize.value)) else None)
      && Lookup(params, "pageToken") == (if TextGiven(pageToken) then Some(pageToken.value) else None)
      && (SizeGiven(pageSize) ==> 9 <= |params[0]| && params[0][..9] == "pageSize=")
  {
    var sizePiece := if SizeGiven(pageSize) then "pageSize=" + Decimal(pageSize.value) else "";
    var tokenPiece := if TextGiven(pageToken) then "pageToken=" + pageToken.value else "";
    if SizeGiven(pageSize) {
      assert sizePiece[..10] != "pageToken=" by { assert sizePiece[4] == 'S'; }
      assert sizePiece[..9] == "pageSize=";
    }
    if TextGiven(pageToken) {
      assert tokenPiece[..9] != "pageSize=" by { assert tokenPiece[4] == 'T'; }
      assert tokenPiece[..10] == "pageToken=";
      var rest := [tokenPiece];
      assert Lookup(rest, "pageToken") == Some(pageToken.value);
    }
  }

  /** Reading the paged path back recovers the path, the page size as `str` wrote it and the
      token unchanged, each present exactly when it was given, with `pageSize` first. This holds
      when the path has no `?` and the token no `&`. */
  lemma PagedReadBack(path: string, pageSize: Option<int>, pageToken: Option<string>)
    requires '?' !in path
    requires pageToken.Some? ==> '&' !in pageToken.value
    ensures var (p, params) := SplitQuery(Paged(path, pageSize, pageToken));
      && p == path
      && |params| == (if SizeGiven(pageSize) then 1 else 0) + (if TextGiven(pageToken) then 1 else 0)
      && Lookup(params, "pageSize") == (if SizeGiven(pageSize) then Some(Decimal(pageSize.value)) else None)
      && Lookup(params, "pageToken") == (if TextGiven(pageToken) then Some(pageToken.value) else None)
      && (SizeGiven(pageSize) ==> 9 <= |params[0]| && params[0][..9] == "pageSize=")
  {
    PagedSplitsBack(path, pageSize, pageToken);
    LookupPageParams(pageSize, pageToken);
  }

  /** The page size read back from the paged path denotes the page size that was given. */
  lemma PageSizeReadBack(path: string, pageSize: Option<int>, pageToken: Option<string>)
    requires '?' !in path
    requires pageToken.Some? ==> '&' !in pageToken.value
    requires SizeGiven(pageSize)
    ensures var (_, params) := SplitQuery(Paged(path, pageSize, pageToken));
      Lookup(params, "pageSize").Some? && DecimalValue(Lookup(params, "pageSize").value) == pageSize.value
  {
    PagedReadBack(path, pageSize, pageToken);
    DecimalDenotes(pageSize.value);
  }

  /** Because the token is not escaped, a token holding `&pageSize=<v>` reads back as a page
      size that the caller never gave. */
  lemma TokenIsNotEscaped(path: string, t: string, v: string)
    requires '?' !in path && '&' !in t && '&' !in v
    ensures var (_, params) := SplitQuery(Paged(path, None, Some(t + "&pageSize=" + v)));
      Lookup(params, "pageSize") == Some(v)
  {
    InjectedTokenSplits(path, t, v);
    var first, second := "pageToken=" + t, "pageSize=" + v;
    assert first[..9] != "pageSize=" by { assert first[4] == 'T'; }
    assert second[..9] == "pageSize=";
  }

  /** A token holding `&pageSize=<v>` splits into two parameters. */
  lemma InjectedTokenSplits(path: string, t: string, v: string)
    requires '?' !in path && '&' !in t && '&' !in v
    ensures SplitQuery(Paged(path, None, Some(t + "&pageSize=" + v))).1 == ["pageToken=" + t, "pageSize=" + v]
  {
    var token := t + "&pageSize=" + v;
    var first, second := "pageToken=" + t, "pageSize=" + v;
    var q := "pageToken=" + token;
    TokenOnlyQuery(path, token);
    SplitQueryOfPath(path, Some(q));
    assert JoinWith('&', [first, second]) == first + "&" + second;
    assert first + "&" + second == q;
    assert '&' !in "pageToken=" && '&' !in "pageSize=";
    SplitJoin('&', [first, second]);
  }

  /** With only a non-empty token, the query is the single `pageToken=` parameter. */
  lemma TokenOnlyQuery(path: string, token: string)
    requires token != ""
    ensures Paged(path, None, Some(token)) == path + "?" + ("pageToken=" + token)
  {
    assert PageParams(None, Some(token)) == ["pageToken=" + token];
  }



}
