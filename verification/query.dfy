/** Query strings as the plugin writes them: name=value fields joined by '&',
    after the endpoint and a '?', with no percent-encoding of any value. */
module Query {
  import opened Results
  import Text

  datatype Param = Param(name: string, value: string)

  function Field(p: Param): string
  {
    p.name + "=" + p.value
  }

  function Fields(ps: seq<Param>): (fs: seq<string>)
    ensures |fs| == |ps|
  {
    seq(|ps|, i requires 0 <= i < |ps| => Field(ps[i]))
  }

  /** The query n1=v1&n2=v2&... with every name and value copied verbatim. */
  function RenderQuery(ps: seq<Param>): string
  {
    Text.Join(Fields(ps), "&")
  }

  /** The URL base?n1=v1&n2=v2&... */
  function RenderUrl(base: string, ps: seq<Param>): string
  {
    base + "?" + RenderQuery(ps)
  }

  /** Adding a parameter at the end appends "&name=value" to the query. */
  lemma RenderQuerySnoc(ps: seq<Param>, p: Param)
    requires |ps| >= 1
    ensures RenderQuery(ps + [p]) == RenderQuery(ps) + "&" + p.name + "=" + p.value
  {
    assert Fields(ps + [p]) == Fields(ps) + [Field(p)];
    Text.JoinSnoc(Fields(ps), Field(p), "&");
  }

  lemma RenderQueryAppend(ps: seq<Param>, qs: seq<Param>)
    requires |ps| >= 1 && |qs| >= 1
    ensures RenderQuery(ps + qs) == RenderQuery(ps) + "&" + RenderQuery(qs)
  {
    assert Fields(ps + qs) == Fields(ps) + Fields(qs);
    Text.JoinAppend(Fields(ps), Fields(qs), "&");
  }

  /** The query of four parameters, written out. */
  lemma RenderQuery4(a: Param, b: Param, c: Param, d: Param)
    ensures RenderQuery([a, b, c, d]) ==
      a.name + "=" + a.value + "&" + b.name + "=" + b.value + "&" +
      c.name + "=" + c.value + "&" + d.name + "=" + d.value
  {
    var ps := [a, b, c, d];
    assert RenderQuery(ps[..1]) == Field(a);
    RenderQuerySnoc(ps[..1], b);
    assert ps[..2] == ps[..1] + [b];
    RenderQuerySnoc(ps[..2], c);
    assert ps[..3] == ps[..2] + [c];
    RenderQuerySnoc(ps[..3], d);
    assert ps == ps[..3] + [d];
  }

  /** A field read back: the name up to its first '=', the value after it. */
  function ParseField(f: string): Param
  {
    match Text.SplitFirst(f, '=')
    case Some(p) => Param(p.0, p.1)
    case None => Param(f, "")
  }

  function ParseQuery(q: string): (ps: seq<Param>)
    ensures |ps| == Text.Occurrences(q, '&') + 1
  {
    var fs := Text.Split(q, '&');
    seq(|fs|, i requires 0 <= i < |fs| => ParseField(fs[i]))
  }

  /** How a server reads a URL: the endpoint before the first '?' and the fields after it. */
  function ParseUrl(url: string): (r: Option<(string, seq<Param>)>)
    ensures r.Some? <==> '?' in url
  {
    match Text.SplitFirst(url, '?')
    case None => None
    case Some(p) => Some((p.0, ParseQuery(p.1)))
  }

  /** A parameter that survives the round trip unescaped. */
  predicate Plain(p: Param)
  {
    '&' !in p.name && '&' !in p.value && '=' !in p.name
  }

  lemma FieldRoundTrip(p: Param)
    requires '=' !in p.name
    ensures ParseField(Field(p)) == p
  {
    assert Field(p) == p.name + ['='] + p.value;
    Text.SplitFirstOfJoined(p.name, p.value, '=');
  }

  lemma QueryRoundTrip(ps: seq<Param>)
    requires |ps| >= 1
    requires forall i :: 0 <= i < |ps| ==> Plain(ps[i])
    ensures ParseQuery(RenderQuery(ps)) == ps
  {
    var fs := Fields(ps);
    forall i | 0 <= i < |fs|
      ensures '&' !in fs[i]
    {
      assert fs[i] == ps[i].name + "=" + ps[i].value;
    }
    Text.SplitJoin(fs, '&');
    var parsed := ParseQuery(Text.Join(fs, "&"));
    forall i | 0 <= i < |ps|
      ensures parsed[i] == ps[i]
    {
      FieldRoundTrip(ps[i]);
    }
  }

  /** A URL whose endpoint has no '?' and whose parameters hold no '&' (and no '=' in a
      name) reads back as exactly that endpoint and those parameters, in order. */
  lemma UrlRoundTrip(base: string, ps: seq<Param>)
    requires '?' !in base
    requires |ps| >= 1
    requires forall i :: 0 <= i < |ps| ==> Plain(ps[i])
    ensures ParseUrl(RenderUrl(base, ps)) == Some((base, ps))
  {
    var q := RenderQuery(ps);
    Text.SplitFirstOfJoined(base, q, '?');
    assert RenderUrl(base, ps) == base + ['?'] + q;
    QueryRoundTrip(ps);
  }

  /** Because values are not escaped, a value holding an '&' makes the URL read back
      with more parameters than were written. */
  lemma AmpersandAddsParameter(base: string, ps: seq<Param>, i: nat)
    requires '?' !in base
    requires i < |ps|
    requires '&' in ps[i].value
    ensures ParseUrl(RenderUrl(base, ps)).Some?
    ensures |ParseUrl(RenderUrl(base, ps)).value.1| > |ps|
  {
    var fs := Fields(ps);
    var q := Text.Join(fs, "&");
    Text.SplitFirstOfJoined(base, q, '?');
    assert RenderUrl(base, ps) == base + ['?'] + q;
    assert fs[i] == ps[i].name + "=" + ps[i].value;
    assert '&' in fs[i];
    Text.OccursOnce(fs[i], '&');
    Text.OccurrencesJoin(fs, '&', i);
  }
}
