/**
 * Query-parameter lookup as Android's `Uri.parse(url).getQueryParameter(name)`
 * does it on a hierarchical URL, without percent-decoding: the query is the
 * text after the first `?` and before the fragment's `#`; it is cut at every
 * `&`; a segment's name runs up to its first `=`, its value is the rest (the
 * empty string when it has no `=`); the first segment with the wanted name wins.
 */
module Uri {
  import opened Wrappers
  import opened Text

  /** The raw query of `url`, or None when it has none. */
  function Query(url: string): (q: Option<string>)
    ensures q.Some? <==> '?' in Before(url, '#')
    ensures q.Some? ==> Before(url, '#') == Before(Before(url, '#'), '?') + "?" + q.value
  {
    var beforeFragment := Before(url, '#');
    if '?' in beforeFragment then Some(After(beforeFragment, '?')) else None
  }

  /** Name of one `name=value` segment. */
  function ParamName(segment: string): string {
    Before(segment, '=')
  }

  /** Value of one `name=value` segment; "" when the segment has no `=`. */
  function ParamValue(segment: string): string {
    if '=' in segment then After(segment, '=') else ""
  }

  /**
   * Value of the first segment called `name`. There is one exactly when some
   * segment is called `name`, and it is the value of the first such segment.
   */
  function Lookup(segments: seq<string>, name: string): (v: Option<string>)
    ensures v.Some? <==> exists k :: 0 <= k < |segments| && ParamName(segments[k]) == name
    ensures v.Some? ==> exists k :: 0 <= k < |segments| && ParamName(segments[k]) == name
                          && v.value == ParamValue(segments[k])
                          && forall j :: 0 <= j < k ==> ParamName(segments[j]) != name
  {
    if segments == [] then
      None
    else if ParamName(segments[0]) == name then
      Some(ParamValue(segments[0]))
    else
      var v := Lookup(segments[1..], name);
      assert forall k :: 0 < k < |segments| ==> segments[k] == segments[1..][k - 1];
      if v.Some? then
        var k :| 0 <= k < |segments[1..]| && ParamName(segments[1..][k]) == name
                 && v.value == ParamValue(segments[1..][k])
                 && forall j :: 0 <= j < k ==> ParamName(segments[1..][j]) != name;
        assert ParamName(segments[k + 1]) == name;
        v
      else
        v
  }

  /** `Uri.getQueryParameter(name)`: None is Kotlin's null. */
  function QueryParameter(url: string, name: string): Option<string> {
    match Query(url)
    case None => None
    case Some(q) => Lookup(Split(q, '&'), name)
  }

  /** The `name=value` segments of a query built from pairs. */
  function Segments(pairs: seq<(string, string)>): (segments: seq<string>)
    ensures |segments| == |pairs|
    ensures forall i :: 0 <= i < |pairs| ==> segments[i] == pairs[i].0 + "=" + pairs[i].1
  {
    if pairs == [] then [] else [pairs[0].0 + "=" + pairs[0].1] + Segments(pairs[1..])
  }

  /** The query string `n1=v1&n2=v2&...`. */
  function BuildQuery(pairs: seq<(string, string)>): string
    requires |pairs| > 0
  {
    Join(Segments(pairs), '&')
  }

  lemma BuildQuerySingle(pair: (string, string))
    ensures BuildQuery([pair]) == pair.0 + "=" + pair.1
  {
  }

  lemma BuildQueryCons(pair: (string, string), rest: seq<(string, string)>)
    requires |rest| > 0
    ensures BuildQuery([pair] + rest) == pair.0 + "=" + pair.1 + "&" + BuildQuery(rest)
  {
    assert ([pair] + rest)[1..] == rest;
    assert Segments([pair] + rest)[1..] == Segments(rest);
  }

  /** The value of the first pair called `name`, if any. */
  function FirstValue(pairs: seq<(string, string)>, name: string): Option<string> {
    if pairs == [] then None
    else if pairs[0].0 == name then Some(pairs[0].1)
    else FirstValue(pairs[1..], name)
  }

  /** Names and values that a query can carry unescaped. */
  ghost predicate PlainPairs(pairs: seq<(string, string)>) {
    forall i :: 0 <= i < |pairs| ==>
      && '&' !in pairs[i].0 && '=' !in pairs[i].0 && '#' !in pairs[i].0
      && '&' !in pairs[i].1 && '#' !in pairs[i].1
  }

  lemma {:induction false} LookupOfSegments(pairs: seq<(string, string)>, name: string)
    requires PlainPairs(pairs)
    ensures Lookup(Segments(pairs), name) == FirstValue(pairs, name)
  {
    if pairs != [] {
      var (n, v) := pairs[0];
      BeforeOfAppend(n, '=', v);
      assert n + "=" + v == n + ['='] + v;
      assert Segments(pairs)[1..] == Segments(pairs[1..]);
      LookupOfSegments(pairs[1..], name);
    }
  }

  /**
   * Looking a name up in `base?n1=v1&n2=v2&...` finds the value of the first
   * pair with that name, provided the base has no query or fragment and no
   * name or value needs escaping.
   */
  lemma {:induction false} QueryParameterOfBuiltUrl(base: string, pairs: seq<(string, string)>, name: string)
    requires '?' !in base && '#' !in base
    requires |pairs| > 0 && PlainPairs(pairs)
    ensures QueryParameter(base + "?" + BuildQuery(pairs), name) == FirstValue(pairs, name)
  {
    var segments := Segments(pairs);
    var query := BuildQuery(pairs);
    forall p | p in segments ensures '#' !in p && '&' !in p {
      var i :| 0 <= i < |segments| && segments[i] == p;
      assert p == pairs[i].0 + ['='] + pairs[i].1;
    }
    JoinAvoids(segments, '&', '#');
    var url := base + "?" + query;
    assert url == base + ['?'] + query;
    assert '#' !in url;
    assert Before(url, '#') == url;
    BeforeOfAppend(base, '?', query);
    assert Query(url) == Some(query);
    SplitOfJoin(segments, '&');
    LookupOfSegments(pairs, name);
  }
}
