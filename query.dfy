/**
 * The endpoint `CollectionsAPI.get_collections` requests: `/collections`,
 * followed, when any filter is given, by `?` and the given filters as
 * `key=value` pairs joined by `&`, in the fixed order page, limit, status,
 * from_date, to_date. Values are pasted in as they are, without escaping.
 */
module Query {
  import opened Wrappers
  import opened Strings

  /** A `key=value` query parameter. */
  type Pair = (string, string)

  /** A recognised filter and the value the caller gave for it, if any. */
  type Candidate = (string, Option<string>)

  const CollectionsPath: string := "/collections"

  // ---------------------------------------------------------------------
  // Decimal text of integers, as Python's `str(int)` writes it
  // ---------------------------------------------------------------------

  function DigitChar(d: nat): (c: char)
    requires d < 10
    ensures IsDigit(c)
  {
    ('0' as int + d) as char
  }

  function DigitValue(c: char): nat
    requires IsDigit(c)
  {
    c as int - '0' as int
  }

  /** The decimal digits of `n`, most significant first, with no leading zero. */
  function NatToDecimal(n: nat): (s: string)
    ensures s != [] && AllDigits(s)
    ensures s[0] == '0' ==> n == 0 && s == "0"
  {
    if n < 10 then [DigitChar(n)] else NatToDecimal(n / 10) + [DigitChar(n % 10)]
  }

  /** The number a digit string denotes. */
  function DecimalValue(s: string): nat
    requires AllDigits(s)
  {
    if s == [] then 0 else DecimalValue(s[..|s| - 1]) * 10 + DigitValue(s[|s| - 1])
  }

  /** `str(n)`: a minus sign exactly for negative numbers, followed by digits only. */
  function IntToDecimal(n: int): (s: string)
    ensures s != [] && (s[0] == '-' <==> n < 0)
    ensures AllDigits(if n < 0 then s[1..] else s)
  {
    if n < 0 then "-" + NatToDecimal(-n) else NatToDecimal(n)
  }

  /** The digits after the sign read back as the magnitude of the number. */
  lemma IntToDecimalReadsBack(n: int)
    ensures var s := IntToDecimal(n);
      DecimalValue(if n < 0 then s[1..] else s) == if n < 0 then -n else n
  {
    if n < 0 {
      NatToDecimalRoundTrip(-n);
      assert IntToDecimal(n)[1..] == NatToDecimal(-n);
    } else {
      NatToDecimalRoundTrip(n);
    }
  }

  /** Reading back the digits of `n` gives `n`. */
  lemma {:induction false} NatToDecimalRoundTrip(n: nat)
    ensures DecimalValue(NatToDecimal(n)) == n
  {
    var s := NatToDecimal(n);
    if n >= 10 {
      NatToDecimalRoundTrip(n / 10);
      assert s[..|s| - 1] == NatToDecimal(n / 10);
    }
  }

  /** Different integers are rendered as different text. */
  lemma IntToDecimalInjective(m: int, n: int)
    requires IntToDecimal(m) == IntToDecimal(n)
    ensures m == n
  {
    IntToDecimalReadsBack(m);
    IntToDecimalReadsBack(n);
  }

  // ---------------------------------------------------------------------
  // Joining and reading back key=value pairs
  // ---------------------------------------------------------------------

  /** `f"{k}={v}"`: the key, one `=` right after it, then the value. */
  function Field(p: Pair): (f: string)
    ensures |f| == |p.0| + 1 + |p.1| && f[|p.0|] == '='
    ensures f[..|p.0|] == p.0 && f[|p.0| + 1..] == p.1
  {
    p.0 + "=" + p.1
  }

  /**
   * `"&".join(...)` of the fields of `ps`: empty exactly when there are no
   * pairs, and otherwise starting with the first field.
   */
  function Join(ps: seq<Pair>): (q: string)
    ensures q == "" <==> ps == []
    ensures ps != [] ==> HasPrefix(q, Field(ps[0]))
  {
    if ps == [] then ""
    else if |ps| == 1 then Field(ps[0])
    else
      var f, rest := Field(ps[0]), Join(ps[1..]);
      assert (f + "&" + rest)[..|f|] == f;
      f + "&" + rest
  }

  /** The position of the first `c` in `s`, or `|s|` when there is none. */
  function IndexOf(s: string, c: char): (i: nat)
    ensures i <= |s|
    ensures i < |s| ==> s[i] == c
    ensures forall j :: 0 <= j < i ==> s[j] != c
  {
    if s == [] then 0 else if s[0] == c then 0 else 1 + IndexOf(s[1..], c)
  }

  /** A field read back: the text before the first `=`, and the text after it. */
  function ParseField(f: string): Pair {
    var i := IndexOf(f, '=');
    if i < |f| then (f[..i], f[i + 1..]) else (f, "")
  }

  /** The `&`-separated fields of a non-empty query string, read back. */
  function ParseFields(q: string): seq<Pair>
    decreases |q|
  {
    var i := IndexOf(q, '&');
    if i < |q| then [ParseField(q[..i])] + ParseFields(q[i + 1..]) else [ParseField(q)]
  }

  /** The pairs a query string denotes. */
  function ParseQuery(q: string): seq<Pair> {
    if q == "" then [] else ParseFields(q)
  }

  /** A key or value that cannot be confused with the separators. */
  predicate Plain(s: string) {
    '&' !in s && '=' !in s
  }

  predicate AllPlain(ps: seq<Pair>) {
    forall i :: 0 <= i < |ps| ==> Plain(ps[i].0) && Plain(ps[i].1)
  }

  lemma IndexOfFirst(a: string, c: char, b: string)
    requires c !in a
    ensures IndexOf(a + [c] + b, c) == |a|
  {
    var s := a + [c] + b;
    assert s[|a|] == c;
    assert forall j :: 0 <= j < |a| ==> s[j] == a[j];
  }

  lemma IndexOfAbsent(s: string, c: char)
    requires c !in s
    ensures IndexOf(s, c) == |s|
  {
  }

  /** A field whose key holds no `=` reads back as its pair. */
  lemma FieldReadsBack(p: Pair)
    requires '=' !in p.0
    ensures ParseField(Field(p)) == p
  {
    var f := Field(p);
    assert f == p.0 + ['='] + p.1;
    IndexOfFirst(p.0, '=', p.1);
  }

  /** Reading back a query that starts with a field free of `&`: that field, then the rest. */
  lemma ParseFieldsCons(f: string, q: string)
    requires '&' !in f && q != ""
    ensures ParseFields(f + "&" + q) == [ParseField(f)] + ParseFields(q)
  {
    var s := f + "&" + q;
    IndexOfFirst(f, '&', q);
    assert s[..|f|] == f;
    assert s[|f| + 1..] == q;
  }

  lemma AllPlainTail(ps: seq<Pair>)
    requires ps != [] && AllPlain(ps)
    ensures AllPlain(ps[1..])
  {
  }

  /** Joining pairs whose keys and values hold neither `&` nor `=` loses nothing: the pairs can be read back. */
  lemma {:induction false} JoinRoundTrip(ps: seq<Pair>)
    requires AllPlain(ps)
    ensures ParseQuery(Join(ps)) == ps
  {
    if ps != [] {
      var f := Field(ps[0]);
      assert f == ps[0].0 + ['='] + ps[0].1;
      assert '&' !in f;
      FieldReadsBack(ps[0]);
      if |ps| == 1 {
        IndexOfAbsent(f, '&');
      } else {
        var q := Join(ps[1..]);
        AllPlainTail(ps);
        JoinRoundTrip(ps[1..]);
        assert q != "" by { assert ParseQuery(q) != []; }
        ParseFieldsCons(f, q);
        assert ps == [ps[0]] + ps[1..];
      }
    }
  }

  // ---------------------------------------------------------------------
  // The endpoint
  // ---------------------------------------------------------------------

  /**
   * The recognised filters in their fixed order: each is present exactly
   * when the caller gave it, page and limit as their decimal text, the
   * other three as given.
   */
  function Candidates(page: Option<int>, limit: Option<int>, status: Option<string>,
                      fromDate: Option<string>, toDate: Option<string>): (cs: seq<Candidate>)
    ensures |cs| == 5
    ensures cs[0].0 == "page" && cs[1].0 == "limit" && cs[2].0 == "status"
    ensures cs[3].0 == "from_date" && cs[4].0 == "to_date"
    ensures (cs[0].1.Some? <==> page.Some?) && (cs[1].1.Some? <==> limit.Some?)
    ensures page.Some? ==> cs[0].1.value == IntToDecimal(page.value)
    ensures limit.Some? ==> cs[1].1.value == IntToDecimal(limit.value)
    ensures cs[2].1 == status && cs[3].1 == fromDate && cs[4].1 == toDate
  {
    [ ("page", if page.Some? then Some(IntToDecimal(page.value)) else None),
      ("limit", if limit.Some? then Some(IntToDecimal(limit.value)) else None),
      ("status", status),
      ("from_date", fromDate),
      ("to_date", toDate) ]
  }

  /** The candidates that were given, in their original order, with absent ones left out. */
  function Present(cs: seq<Candidate>): (ps: seq<Pair>)
    ensures |ps| <= |cs|
    ensures cs != [] && cs[0].1.Some? ==> ps != [] && ps[0] == (cs[0].0, cs[0].1.value)
  {
    if cs == [] then []
    else if cs[0].1.Some? then [(cs[0].0, cs[0].1.value)] + Present(cs[1..])
    else Present(cs[1..])
  }

  /**
   * Exactly the given candidates are kept: every kept pair comes from a
   * given candidate, every given candidate is kept, and nothing is kept
   * when nothing is given.
   */
  lemma {:induction false} PresentKeepsGiven(cs: seq<Candidate>)
    ensures var ps := Present(cs);
      && |ps| <= |cs|
      && (forall i :: 0 <= i < |ps| ==> (ps[i].0, Some(ps[i].1)) in cs)
      && (forall i :: 0 <= i < |cs| && cs[i].1.Some? ==> (cs[i].0, cs[i].1.value) in ps)
      && (ps == [] <==> forall i :: 0 <= i < |cs| ==> cs[i].1.None?)
  {
    if cs != [] {
      PresentKeepsGiven(cs[1..]);
      assert forall i :: 1 <= i < |cs| ==> cs[i] == cs[1..][i - 1];
    }
  }

  /** Leaving out absent candidates can be done piece by piece. */
  lemma {:induction false} PresentAppend(a: seq<Candidate>, b: seq<Candidate>)
    ensures Present(a + b) == Present(a) + Present(b)
  {
    if a == [] {
      assert a + b == b;
    } else {
      assert (a + b)[0] == a[0];
      assert (a + b)[1..] == a[1..] + b;
      PresentAppend(a[1..], b);
    }
  }

  /** The five recognised filters, each left out or kept on its own. */
  lemma PresentOfCandidates(cs: seq<Candidate>)
    requires |cs| == 5
    ensures Present(cs) == Present([cs[0]]) + Present([cs[1]]) + Present([cs[2]]) + Present([cs[3]]) + Present([cs[4]])
  {
    assert cs == [cs[0]] + [cs[1]] + [cs[2]] + [cs[3]] + [cs[4]];
    PresentAppend([cs[0]] + [cs[1]] + [cs[2]] + [cs[3]], [cs[4]]);
    PresentAppend([cs[0]] + [cs[1]] + [cs[2]], [cs[3]]);
    PresentAppend([cs[0]] + [cs[1]], [cs[2]]);
    PresentAppend([cs[0]], [cs[1]]);
  }

  /** The path for the given query pairs: bare when there are none. */
  function Endpoint(filters: seq<Pair>): (path: string)
    ensures HasPrefix(path, CollectionsPath)
  {
    if filters == [] then CollectionsPath else CollectionsPath + "?" + Join(filters)
  }

  /** The query pairs a `/collections` path carries. */
  function EndpointFilters(path: string): seq<Pair> {
    var prefix := CollectionsPath + "?";
    if HasPrefix(path, prefix) then ParseQuery(path[|prefix|..]) else []
  }

  /**
   * Builds the endpoint step by step: each given filter is appended to the
   * filter list in turn, and the list, if not empty, is joined after a `?`.
   */
  method CollectionsEndpoint(page: Option<int>, limit: Option<int>, status: Option<string>,
                             fromDate: Option<string>, toDate: Option<string>)
    returns (endpoint: string)
    ensures endpoint == Endpoint(Present(Candidates(page, limit, status, fromDate, toDate)))
  {
    ghost var cs := Candidates(page, limit, status, fromDate, toDate);
    PresentOfCandidates(cs);
    var filters: seq<Pair> := [];

    if page.Some? {
      filters := filters + [("page", IntToDecimal(page.value))];
    }
    assert filters == Present([cs[0]]);
    if limit.Some? {
      filters := filters + [("limit", IntToDecimal(limit.value))];
    }
    assert filters == Present([cs[0]]) + Present([cs[1]]);
    if status.Some? {
      filters := filters + [("status", status.value)];
    }
    assert filters == Present([cs[0]]) + Present([cs[1]]) + Present([cs[2]]);
    if fromDate.Some? {
      filters := filters + [("from_date", fromDate.value)];
    }
    assert filters == Present([cs[0]]) + Present([cs[1]]) + Present([cs[2]]) + Present([cs[3]]);
    if toDate.Some? {
      filters := filters + [("to_date", toDate.value)];
    }
    assert filters == Present(cs);

    endpoint := CollectionsPath;
    if filters != [] {
      endpoint := endpoint + "?" + Join(filters);
    }
  }

  /** With no filter given, the path is exactly `/collections`, without a `?`. */
  lemma NoFiltersEndpoint(path: string)
    requires path == Endpoint(Present(Candidates(None, None, None, None, None)))
    ensures path == CollectionsPath && '?' !in path
  {
  }

  /** The query of an endpoint built from plain pairs reads back as those pairs. */
  lemma EndpointFiltersOfEndpoint(fs: seq<Pair>)
    requires AllPlain(fs)
    ensures EndpointFilters(Endpoint(fs)) == fs
  {
    JoinRoundTrip(fs);
    var prefix := CollectionsPath + "?";
    var path := Endpoint(fs);
    if fs != [] {
      assert path == prefix + Join(fs);
      assert path[..|prefix|] == prefix;
      assert path[|prefix|..] == Join(fs);
    } else {
      assert |path| < |prefix|;
    }
  }

  /** The text of an integer is a sign and digits, so it never holds `&` or `=`. */
  lemma IntToDecimalPlain(n: int)
    ensures Plain(IntToDecimal(n))
  {
    var s := IntToDecimal(n);
    if n < 0 {
      assert s == [s[0]] + s[1..];
    }
  }

  /** Candidates whose keys and given values are plain give plain pairs. */
  lemma {:induction false} PresentPlain(cs: seq<Candidate>)
    requires forall i :: 0 <= i < |cs| ==> Plain(cs[i].0) && (cs[i].1.Some? ==> Plain(cs[i].1.value))
    ensures AllPlain(Present(cs))
  {
    if cs != [] {
      assert forall i :: 0 <= i < |cs[1..]| ==> cs[1..][i] == cs[i + 1];
      PresentPlain(cs[1..]);
    }
  }

  /** The rendered page and limit never hold `&` or `=`; the other filters are plain by assumption. */
  lemma CandidatesPlain(page: Option<int>, limit: Option<int>, status: Option<string>,
                        fromDate: Option<string>, toDate: Option<string>)
    requires status.Some? ==> Plain(status.value)
    requires fromDate.Some? ==> Plain(fromDate.value)
    requires toDate.Some? ==> Plain(toDate.value)
    ensures AllPlain(Present(Candidates(page, limit, status, fromDate, toDate)))
  {
    var cs := Candidates(page, limit, status, fromDate, toDate);
    if page.Some? { IntToDecimalPlain(page.value); }
    if limit.Some? { IntToDecimalPlain(limit.value); }
    assert forall i :: 0 <= i < |cs| ==> Plain(cs[i].0) && (cs[i].1.Some? ==> Plain(cs[i].1.value)) by {
      assert Plain(cs[0].0) && Plain(cs[1].0) && Plain(cs[2].0) && Plain(cs[3].0) && Plain(cs[4].0);
    }
    PresentPlain(cs);
  }

  /**
   * When the text filters hold neither `&` nor `=`, the requested path
   * carries exactly the given filters, in the fixed order, and nothing else.
   */
  lemma EndpointRoundTrip(page: Option<int>, limit: Option<int>, status: Option<string>,
                          fromDate: Option<string>, toDate: Option<string>)
    requires status.Some? ==> Plain(status.value)
    requires fromDate.Some? ==> Plain(fromDate.value)
    requires toDate.Some? ==> Plain(toDate.value)
    ensures var fs := Present(Candidates(page, limit, status, fromDate, toDate));
      EndpointFilters(Endpoint(fs)) == fs
  {
    CandidatesPlain(page, limit, status, fromDate, toDate);
    EndpointFiltersOfEndpoint(Present(Candidates(page, limit, status, fromDate, toDate)));
  }

  /** `page=2, limit=10` gives `/collections?page=2&limit=10`. */
  lemma PageLimitExample(path: string)
    requires path == Endpoint(Present(Candidates(Some(2), Some(10), None, None, None)))
    ensures path == "/collections?page=2&limit=10"
  {
  }

  /**
   * Values are not escaped: a status holding `&from_date=` followed by a date
   * produces the same path as the plain status with that date given as a
   * separate from_date, so the remote service cannot tell the two apart.
   */
  lemma UnescapedValuesCollide(status: string, date: string)
    ensures Endpoint(Present(Candidates(None, None, Some(status + "&from_date=" + date), None, None)))
         == Endpoint(Present(Candidates(None, None, Some(status), Some(date), None)))
  {
    var joined := status + "&from_date=" + date;
    var c1 := Candidates(None, None, Some(joined), None, None);
    var c2 := Candidates(None, None, Some(status), Some(date), None);
    PresentOfCandidates(c1);
    PresentOfCandidates(c2);
    var one, two := Present(c1), Present(c2);
    assert one == [("status", joined)];
    assert two == [("status", status), ("from_date", date)];
    assert Join(one) == "status=" + joined;
    assert Join(two) == "status=" + status + "&" + "from_date=" + date;
    assert Join(one) == Join(two);
  }
}
