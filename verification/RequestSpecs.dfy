/** Requests as the mocker stores and compares them. */
module RequestSpecs {
  import opened Collections
  import opened Text

  newtype byte = x: int | 0 <= x < 256

  /** How often each value of one query parameter occurs. */
  type Frequencies = map<string, nat>

  type RawQuery = map<string, seq<string>>

  datatype RequestSpec = RequestSpec(
    path: string,
    verb: string,
    query: map<string, Frequencies>,
    hasBody: bool,
    body: seq<byte>)

  // ---------------------------------------------------------------------
  // Methods are compared in upper case, without surrounding blanks
  // ---------------------------------------------------------------------

  function Normalize(verb: string): string {
    ToUpper(TrimSpace(verb))
  }

  lemma NormalizeIsIdempotent(verb: string)
    ensures Normalize(Normalize(verb)) == Normalize(verb)
  {
    TrimSpaceTrims(verb);
    var n := Normalize(verb);
    assert Trimmed(n);
    assert TrimSpace(n) == n;
    assert ToUpper(n) == n;
  }

  // ---------------------------------------------------------------------
  // Frequency tables against multisets
  // ---------------------------------------------------------------------

  function Count(freq: Frequencies, v: string): nat {
    if v in freq then freq[v] else 0
  }

  /** The table says exactly how often each value is in the bag, and has no
      entry for anything else. */
  ghost predicate Tallies(freq: Frequencies, bag: multiset<string>) {
    && (forall v :: Count(freq, v) == bag[v])
    && (forall v | v in freq :: freq[v] > 0)
  }

  ghost predicate Positive(freq: Frequencies) {
    forall v | v in freq :: freq[v] > 0
  }

  function Tally(values: seq<string>): Frequencies {
    if values == [] then map[]
    else
      var v := values[|values| - 1];
      var freq := Tally(values[..|values| - 1]);
      freq[v := Count(freq, v) + 1]
  }

  lemma {:induction false} TallyTallies(values: seq<string>)
    ensures Tallies(Tally(values), multiset(values))
  {
    if values != [] {
      var n := |values| - 1;
      TallyTallies(values[..n]);
      assert values == values[..n] + [values[n]];
    }
  }

  lemma TalliesIsUnique(f: Frequencies, g: Frequencies, bag: multiset<string>)
    requires Tallies(f, bag) && Tallies(g, bag)
    ensures f == g
  {
    forall v ensures v in f <==> v in g {
      assert Count(f, v) == bag[v] == Count(g, v);
    }
    forall v | v in f ensures f[v] == g[v] {
      assert Count(f, v) == bag[v] == Count(g, v);
    }
  }

  /** Equal tables mean the same values equally often, in any order. */
  lemma TallyIffSameBag(s: seq<string>, t: seq<string>)
    ensures Tally(s) == Tally(t) <==> multiset(s) == multiset(t)
  {
    TallyTallies(s);
    TallyTallies(t);
    if multiset(s) == multiset(t) {
      TalliesIsUnique(Tally(s), Tally(t), multiset(s));
    }
    if Tally(s) == Tally(t) {
      forall v ensures multiset(s)[v] == multiset(t)[v] {
        assert Count(Tally(s), v) == multiset(s)[v];
        assert Count(Tally(t), v) == multiset(t)[v];
      }
    }
  }

  // ---------------------------------------------------------------------
  // Construction
  // ---------------------------------------------------------------------

  function Tallied(raw: RawQuery): map<string, Frequencies> {
    map k | k in raw :: Tally(raw[k])
  }

  function Built(path: string, verb: string, raw: RawQuery, hasBody: bool, body: seq<byte>): RequestSpec {
    RequestSpec(path, Normalize(verb), Tallied(raw), hasBody, if hasBody then body else [])
  }

  /** What the constructor establishes. */
  ghost predicate Valid(r: RequestSpec) {
    && Normalize(r.verb) == r.verb
    && (forall k | k in r.query :: Positive(r.query[k]))
    && (!r.hasBody ==> r.body == [])
  }

  lemma BuiltIsValid(path: string, verb: string, raw: RawQuery, hasBody: bool, body: seq<byte>)
    ensures Valid(Built(path, verb, raw, hasBody, body))
  {
    NormalizeIsIdempotent(verb);
    forall k | k in raw ensures Positive(Tally(raw[k])) {
      TallyTallies(raw[k]);
    }
  }

  method CountValues(values: seq<string>) returns (freq: Frequencies)
    ensures freq == Tally(values)
  {
    freq := map[];
    for i := 0 to |values|
      invariant freq == Tally(values[..i])
    {
      assert values[..i + 1][..i] == values[..i];
      freq := freq[values[i] := Count(freq, values[i]) + 1];
    }
    assert values[..|values|] == values;
  }

  method CountQuery(raw: RawQuery) returns (query: map<string, Frequencies>)
    ensures query == Tallied(raw)
  {
    query := map[];
    var keys := raw.Keys;
    while keys != {}
      invariant keys <= raw.Keys && query.Keys == raw.Keys - keys
      invariant forall k | k in query :: query[k] == Tally(raw[k])
      decreases |keys|
    {
      ghost var w := Element(keys);
      var key :| key in keys;
      var freq := CountValues(raw[key]);
      query := query[key := freq];
      keys := keys - {key};
    }
  }

  method NewRequestSpec(path: string, verb: string, raw: RawQuery, hasBody: bool, body: seq<byte>) returns (r: RequestSpec)
    ensures r == Built(path, verb, raw, hasBody, body)
    ensures Valid(r)
  {
    var query := CountQuery(raw);
    BuiltIsValid(path, verb, raw, hasBody, body);
    return RequestSpec(path, Normalize(verb), query, hasBody, if hasBody then body else []);
  }

  // ---------------------------------------------------------------------
  // Comparison
  // ---------------------------------------------------------------------

  /** Same number of entries, each with the same count: the loop of Equals
      finds a difference whenever there is one. */
  lemma CoversAll(f: Frequencies, g: Frequencies)
    requires |f| == |g| && Positive(f) && forall v | v in f :: Count(g, v) == f[v]
    ensures f == g
  {
    assert f.Keys <= g.Keys;
    SubsetCount(f.Keys, g.Keys);
    assert |f| == |f.Keys| && |g| == |g.Keys|;
    assert f.Keys == g.Keys;
    forall v | v in f ensures f[v] == g[v] {
      assert Count(g, v) == f[v];
    }
  }

  /** The two nested loops over one query parameter. */
  method SameFrequencies(f: Frequencies, g: Frequencies) returns (same: bool)
    requires Positive(f)
    ensures same <==> f == g
  {
    if |f| != |g| {
      return false;
    }
    var vals := f.Keys;
    while vals != {}
      invariant vals <= f.Keys
      invariant forall v | v in f && v !in vals :: Count(g, v) == f[v]
      decreases |vals|
    {
      ghost var w := Element(vals);
      var v :| v in vals;
      if Count(g, v) != f[v] {
        return false;
      }
      vals := vals - {v};
    }
    CoversAll(f, g);
    return true;
  }

  method Equals(r: RequestSpec, other: RequestSpec) returns (equal: bool)
    requires Valid(r) && Valid(other)
    ensures equal <==> r == other
  {
    if r.verb != other.verb || r.path != other.path {
      return false;
    }
    if |r.query| != |other.query| {
      return false;
    }
    if r.hasBody != other.hasBody {
      return false;
    }
    var keys := r.query.Keys;
    while keys != {}
      invariant keys <= r.query.Keys
      invariant forall k | k in r.query && k !in keys :: k in other.query && r.query[k] == other.query[k]
      decreases |keys|
    {
      ghost var w := Element(keys);
      var key :| key in keys;
      if key !in other.query {
        return false;
      }
      var same := SameFrequencies(r.query[key], other.query[key]);
      if !same {
        return false;
      }
      keys := keys - {key};
    }
    SubsetCount(r.query.Keys, other.query.Keys);
    assert |r.query| == |r.query.Keys| && |other.query| == |other.query.Keys|;
    assert r.query == other.query;
    if r.hasBody && r.body != other.body {
      return false;
    }
    return true;
  }

  /** The same parameters, each with the same values equally often. */
  ghost predicate SameBags(raw: RawQuery, raw': RawQuery) {
    raw.Keys == raw'.Keys && forall k | k in raw :: multiset(raw[k]) == multiset(raw'[k])
  }

  lemma TalliedIffSameBags(raw: RawQuery, raw': RawQuery)
    ensures Tallied(raw) == Tallied(raw') <==> SameBags(raw, raw')
  {
    var q, q' := Tallied(raw), Tallied(raw');
    assert q.Keys == raw.Keys && q'.Keys == raw'.Keys;
    forall k | k in raw && k in raw' ensures q[k] == q'[k] <==> multiset(raw[k]) == multiset(raw'[k]) {
      TallyIffSameBag(raw[k], raw'[k]);
    }
    if SameBags(raw, raw') {
      assert forall k | k in q :: q[k] == q'[k];
    }
    if q == q' {
      assert forall k | k in raw :: q[k] == q'[k];
    }
  }

  /** Two requests match exactly when their methods agree up to case and blanks,
      their paths and bodies agree, and every query parameter has the same
      values equally often, in whatever order they came. */
  lemma MatchingIsBagEquality(
      path: string, verb: string, raw: RawQuery, hasBody: bool, body: seq<byte>,
      path': string, verb': string, raw': RawQuery, hasBody': bool, body': seq<byte>)
    ensures Built(path, verb, raw, hasBody, body) == Built(path', verb', raw', hasBody', body') <==>
      && path == path' && Normalize(verb) == Normalize(verb') && hasBody == hasBody' && (hasBody ==> body == body')
      && SameBags(raw, raw')
  {
    TalliedIffSameBags(raw, raw');
  }

  // ---------------------------------------------------------------------
  // Back to raw parameters
  // ---------------------------------------------------------------------

  /** One of the many results the unordered iteration may give. */
  ghost predicate IsQueryParams(query: map<string, Frequencies>, out: RawQuery) {
    out.Keys == query.Keys && forall k | k in query :: Tallies(query[k], multiset(out[k]))
  }

  method Spread(freq: Frequencies) returns (values: seq<string>)
    requires Positive(freq)
    ensures Tallies(freq, multiset(values))
  {
    values := [];
    var vals := freq.Keys;
    while vals != {}
      invariant vals <= freq.Keys
      invariant forall v :: multiset(values)[v] == if v in vals then 0 else Count(freq, v)
      decreases |vals|
    {
      ghost var w := Element(vals);
      var val :| val in vals;
      ghost var before := values;
      for i := 0 to freq[val]
        invariant forall v :: multiset(values)[v] == multiset(before)[v] + if v == val then i else 0
      {
        values := values + [val];
      }
      vals := vals - {val};
    }
  }

  method QueryParams(r: RequestSpec) returns (out: RawQuery)
    requires Valid(r)
    ensures IsQueryParams(r.query, out)
  {
    out := map[];
    var keys := r.query.Keys;
    while keys != {}
      invariant keys <= r.query.Keys && out.Keys == r.query.Keys - keys
      invariant forall k | k in out :: Tallies(r.query[k], multiset(out[k]))
      decreases |keys|
    {
      ghost var w := Element(keys);
      var key :| key in keys;
      var values := Spread(r.query[key]);
      out := out[key := values];
      keys := keys - {key};
    }
  }

  /** Round trip: whatever order the parameters came out in, building a request
      from them again gives an equal one. */
  lemma RebuiltIsEqual(r: RequestSpec, out: RawQuery)
    requires Valid(r) && IsQueryParams(r.query, out)
    ensures Built(r.path, r.verb, out, r.hasBody, r.body) == r
  {
    forall k | k in out ensures Tally(out[k]) == r.query[k] {
      TallyTallies(out[k]);
      TalliesIsUnique(Tally(out[k]), r.query[k], multiset(out[k]));
    }
  }
}
