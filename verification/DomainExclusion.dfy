/** Hosts that must not receive tracing headers: an exact set and a suffix list built once at
    start-up, against the patterns they were built from. */
module DomainExclusion {
  import opened Collections

  /** `exact` and `suffixes` as the configuration holds them. */
  datatype Excluded = Excluded(exact: set<string>, suffixes: seq<string>)

  function StripPort(host: string): (stripped: string)
    ensures stripped <= host && ':' !in stripped
    ensures stripped == host || host[|stripped|] == ':'
  {
    if host == "" || host[0] == ':' then "" else [host[0]] + StripPort(host[1..])
  }

  predicate Wildcard(pattern: string) {
    "*." <= pattern
  }

  /** What one configured pattern means for a host: `*.rest` stands for every host that ends in
      `.rest`, and any other pattern for itself. */
  predicate Matches(lower: string -> string, pattern: string, host: string) {
    var d, h := lower(pattern), lower(StripPort(host));
    if Wildcard(d) then HasSuffix(h, d[1..]) else h == d
  }

  /** The scan of the configured patterns that the index stands in for. */
  predicate Scan(lower: string -> string, patterns: seq<string>, host: string) {
    exists i :: 0 <= i < |patterns| && Matches(lower, patterns[i], host)
  }

  /** The index splits the patterns into exact names and suffixes, and holds nothing else. */
  ghost predicate Built(e: Excluded, lower: string -> string, patterns: seq<string>) {
    && (forall d :: d in e.exact <==> exists p :: p in patterns && lower(p) == d && !Wildcard(d))
    && (forall x :: x in e.suffixes <==> exists p :: p in patterns && Wildcard(lower(p)) && x == lower(p)[1..])
  }

  /** The loop at start-up. */
  method Build(lower: string -> string, patterns: seq<string>) returns (e: Excluded)
    ensures Built(e, lower, patterns)
  {
    var exact: set<string>, suffixes: seq<string> := {}, [];
    for i := 0 to |patterns|
      invariant Built(Excluded(exact, suffixes), lower, patterns[..i])
    {
      var d := lower(patterns[i]);
      assert patterns[..i + 1] == patterns[..i] + [patterns[i]];
      if Wildcard(d) {
        suffixes := suffixes + [d[1..]];
      } else {
        exact := exact + {d};
      }
    }
    assert patterns[..|patterns|] == patterns;
    return Excluded(exact, suffixes);
  }

  /** The look-up: nothing configured, the exact set, then the suffixes in turn. */
  method IsDomainExcluded(e: Excluded, lower: string -> string, host: string) returns (excluded: bool)
    ensures excluded <==> lower(StripPort(host)) in e.exact
                          || exists i :: 0 <= i < |e.suffixes| && HasSuffix(lower(StripPort(host)), e.suffixes[i])
  {
    if |e.exact| == 0 && |e.suffixes| == 0 {
      return false;
    }
    var h := lower(StripPort(host));
    if h in e.exact {
      return true;
    }
    for i := 0 to |e.suffixes|
      invariant forall j :: 0 <= j < i ==> !HasSuffix(h, e.suffixes[j])
    {
      if HasSuffix(h, e.suffixes[i]) {
        return true;
      }
    }
    return false;
  }

  /** The index answers as the scan does, for every list of patterns and every host. */
  lemma IndexRefinesScan(e: Excluded, lower: string -> string, patterns: seq<string>, host: string)
    requires Built(e, lower, patterns)
    ensures Scan(lower, patterns, host) <==>
            lower(StripPort(host)) in e.exact
            || exists i :: 0 <= i < |e.suffixes| && HasSuffix(lower(StripPort(host)), e.suffixes[i])
  {
    var h := lower(StripPort(host));
    if Scan(lower, patterns, host) {
      var i :| 0 <= i < |patterns| && Matches(lower, patterns[i], host);
      var p := patterns[i];
      if Wildcard(lower(p)) {
        assert p in patterns && lower(p)[1..] in e.suffixes;
      }
    }
    if h in e.exact {
      var p :| p in patterns && lower(p) == h && !Wildcard(h);
      assert Matches(lower, p, host);
    }
    forall i | 0 <= i < |e.suffixes| && HasSuffix(h, e.suffixes[i])
      ensures Scan(lower, patterns, host)
    {
      assert e.suffixes[i] in e.suffixes;
      var p :| p in patterns && Wildcard(lower(p)) && e.suffixes[i] == lower(p)[1..];
      assert Matches(lower, p, host);
    }
  }

  /** Only which patterns are listed matters, not their order or how often they are. */
  lemma OrderAndRepeatsIrrelevant(lower: string -> string, ps: seq<string>, qs: seq<string>, host: string)
    requires forall p :: p in ps <==> p in qs
    ensures Scan(lower, ps, host) <==> Scan(lower, qs, host)
  {
    forall ps', qs' | (ps' == ps && qs' == qs) || (ps' == qs && qs' == ps)
      ensures Scan(lower, ps', host) ==> Scan(lower, qs', host)
    {
      if i :| 0 <= i < |ps'| && Matches(lower, ps'[i], host) {
        assert ps'[i] in qs';
      }
    }
  }

  /** A pattern that is not a wildcard covers exactly the host it names, in any case and with any
      port. */
  lemma ExactIff(lower: string -> string, pattern: string, host: string)
    requires !("*." <= lower(pattern))
    ensures Matches(lower, pattern, host) <==> lower(StripPort(host)) == lower(pattern)
  {}

  /** `*.domain` covers what is below the domain, and not the domain itself. */
  lemma WildcardIff(lower: string -> string, host: string, domain: string)
    requires lower("*." + domain) == "*." + domain
    ensures Matches(lower, "*." + domain, host) <==> exists sub :: lower(StripPort(host)) == sub + "." + domain
    ensures lower(StripPort(host)) == domain ==> !Matches(lower, "*." + domain, host)
  {
    var h, suffix := lower(StripPort(host)), "." + domain;
    assert ("*." + domain)[1..] == suffix;
    if HasSuffix(h, suffix) {
      assert h == h[..|h| - |suffix|] + "." + domain;
    }
    forall sub | h == sub + "." + domain
      ensures HasSuffix(h, suffix)
    {
      assert h == sub + suffix;
    }
  }

  /** A pattern with a port excludes nothing, since hosts are compared without theirs. */
  lemma PortPatternIsInert(lower: string -> string, pattern: string, host: string)
    requires forall s :: ':' !in s ==> ':' !in lower(s)
    requires ':' in lower(pattern)
    ensures !Matches(lower, pattern, host)
  {
    var d, h := lower(pattern), lower(StripPort(host));
    if Wildcard(d) {
      assert d == "*" + d[1..] && ':' in d[1..];
      SuffixChars(h, d[1..], ':');
    }
  }

  lemma SuffixChars(s: string, suffix: string, c: char)
    requires c in suffix
    ensures HasSuffix(s, suffix) ==> c in s
  {
    if HasSuffix(s, suffix) {
      assert s == s[..|s| - |suffix|] + suffix;
    }
  }
}
