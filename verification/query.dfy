/**
 * Query strings built by concatenation, and a reference reading of them: a URL
 * is cut at its first `?`, the query is split at `&`, and each parameter is
 * cut at its first `=`. No percent-encoding is involved on either side.
 */
module Query {
  import opened Wrappers
  import opened Strings

  type Param = (string, string)

  function EncodeParam(p: Param): string {
    p.0 + "=" + p.1
  }

  /** A parameter without `=` reads as a name with an empty value. */
  function DecodeParam(s: string): Param {
    match Cut(s, '=')
    case None => (s, "")
    case Some((k, v)) => (k, v)
  }

  function EncodeAll(ps: seq<Param>): (r: seq<string>)
    ensures |r| == |ps|
  {
    if |ps| == 0 then [] else [EncodeParam(ps[0])] + EncodeAll(ps[1..])
  }

  function DecodeAll(parts: seq<string>): (r: seq<Param>)
    ensures |r| == |parts|
  {
    if |parts| == 0 then [] else [DecodeParam(parts[0])] + DecodeAll(parts[1..])
  }

  function QueryString(ps: seq<Param>): string {
    Join(EncodeAll(ps), '&')
  }

  lemma QueryStringOne(p: Param)
    ensures QueryString([p]) == EncodeParam(p)
  {
  }

  lemma QueryStringCons(ps: seq<Param>)
    requires |ps| >= 2
    ensures QueryString(ps) == EncodeParam(ps[0]) + "&" + QueryString(ps[1..])
  {
    assert EncodeAll(ps)[1..] == EncodeAll(ps[1..]);
  }

  function ParseQuery(q: string): seq<Param> {
    DecodeAll(Split(q, '&'))
  }

  /** A URL read as its part before the first `?` and the parameters after it. */
  function ParseUrl(url: string): (string, seq<Param>) {
    match Cut(url, '?')
    case None => (url, [])
    case Some((base, q)) => (base, ParseQuery(q))
  }

  /** The value of the first entry named `k`, as a reader of the list finds it. */
  function Find<V>(ps: seq<(string, V)>, k: string): (r: Option<V>)
    ensures r.None? <==> forall i :: 0 <= i < |ps| ==> ps[i].0 != k
    ensures r.Some? ==> exists i :: 0 <= i < |ps| && ps[i] == (k, r.value)
  {
    if |ps| == 0 then None
    else if ps[0].0 == k then Some(ps[0].1)
    else
      var r := Find(ps[1..], k);
      assert forall i :: 1 <= i < |ps| ==> ps[i] == ps[1..][i - 1];
      r
  }

  /** The entry at `i` is the one found when no earlier entry has its name. */
  lemma {:induction false} FindAt<V>(ps: seq<(string, V)>, i: nat)
    requires i < |ps|
    requires forall j :: 0 <= j < i ==> ps[j].0 != ps[i].0
    ensures Find(ps, ps[i].0) == Some(ps[i].1)
    decreases i
  {
    if i > 0 && ps[0].0 != ps[i].0 {
      FindAt(ps[1..], i - 1);
    }
  }

  /** Parameters that survive the round trip: names free of `=` and `&`, values free of `&`. */
  predicate Plain(ps: seq<Param>) {
    forall i :: 0 <= i < |ps| ==> '=' !in ps[i].0 && '&' !in ps[i].0 && '&' !in ps[i].1
  }

  lemma {:induction false} DecodeEncode(ps: seq<Param>)
    requires Plain(ps)
    ensures DecodeAll(EncodeAll(ps)) == ps
    ensures forall i :: 0 <= i < |ps| ==> '&' !in EncodeAll(ps)[i]
    decreases |ps|
  {
    if |ps| > 0 {
      DecodeEncode(ps[1..]);
      CutConcat(ps[0].0, '=', ps[0].1);
      assert ps[0].0 + "=" + ps[0].1 == ps[0].0 + ['='] + ps[0].1;
      assert [ps[0]] + ps[1..] == ps;
      var e := EncodeAll(ps);
      assert e[1..] == EncodeAll(ps[1..]);
    }
  }

  /** Reading back a query string gives the parameters it was built from. */
  lemma ParseQueryString(ps: seq<Param>)
    requires |ps| >= 1
    requires Plain(ps)
    ensures ParseQuery(QueryString(ps)) == ps
  {
    DecodeEncode(ps);
    SplitJoin(EncodeAll(ps), '&');
  }

  /** Reading back `base?query` gives the base and the parameters, when the base holds no `?`. */
  lemma ParseUrlBuild(base: string, ps: seq<Param>)
    requires '?' !in base
    requires |ps| >= 1
    requires Plain(ps)
    ensures ParseUrl(base + "?" + QueryString(ps)) == (base, ps)
  {
    CutConcat(base, '?', QueryString(ps));
    assert base + "?" + QueryString(ps) == base + ['?'] + QueryString(ps);
    ParseQueryString(ps);
  }
}
