/** Which hosts belong to whom: managed integrations by their apexes, everything else by the operator's own rules. */
module DomainRules {
  import opened Prelude

  // ---------------------------------------------------------------------------
  // Strings

  predicate EndsWith(s: string, end: string) {
    |end| <= |s| && s[|s| - |end|..] == end
  }

  lemma EndsExactly(s: string, end: string)
    ensures EndsWith(s, end) <==> exists start :: s == start + end
  {
    if EndsWith(s, end) {
      assert s == s[..|s| - |end|] + end;
    }
  }

  /** Of two ends of one string the shorter is an end of the longer. */
  lemma TwoEnds(s: string, a: string, b: string)
    requires EndsWith(s, a) && EndsWith(s, b) && |a| <= |b|
    ensures EndsWith(b, a)
  {
    assert b[|b| - |a|..] == s[|s| - |a|..];
  }

  lemma EndOfEnd(s: string, a: string, b: string)
    requires EndsWith(s, a) && EndsWith(a, b)
    ensures EndsWith(s, b)
  {
    assert s[|s| - |b|..] == a[|a| - |b|..];
  }

  function LowerChar(c: char): char {
    if 'A' <= c <= 'Z' then (c as int + 32) as char else c
  }

  function Lower(s: string): (t: string)
    ensures |t| == |s|
  {
    seq(|s|, i requires 0 <= i < |s| => LowerChar(s[i]))
  }

  predicate IsWildcard(domain: string) {
    |domain| >= 2 && domain[..2] == "*."
  }

  predicate IsLabelChar(c: char) {
    'A' <= c <= 'Z' || 'a' <= c <= 'z' || '0' <= c <= '9' || c == '-'
  }

  /** Two or more non-empty labels, with dots between them. */
  predicate IsDomain(s: string) {
    && s != "" && s[0] != '.' && s[|s| - 1] != '.' && '.' in s
    && (forall i :: 0 <= i < |s| ==> IsLabelChar(s[i]) || s[i] == '.')
    && (forall i :: 0 <= i < |s| - 1 ==> !(s[i] == '.' && s[i + 1] == '.'))
  }

  predicate IsDomainRule(s: string) {
    IsDomain(s) || (IsWildcard(s) && IsDomain(s[2..]))
  }

  // ---------------------------------------------------------------------------
  // Managed integrations

  datatype Integration = Integration(id: string, apexes: seq<string>)

  /** The host is the apex or lies under it. */
  predicate Under(host: string, apex: string) {
    host == apex || EndsWith(host, "." + apex)
  }

  lemma UnderExactly(host: string, apex: string)
    ensures Under(host, apex) <==> host == apex || exists below :: host == below + ("." + apex)
  {
    EndsExactly(host, "." + apex);
  }

  /** A domain rule touches an apex: it lies under it, or it is a wildcard that covers it. */
  predicate Claims(apex: string, domain: string) {
    var suffix := if IsWildcard(domain) then domain[2..] else domain;
    Under(suffix, apex) || (IsWildcard(domain) && EndsWith(apex, "." + suffix))
  }

  predicate Owns(i: Integration, domain: string) {
    exists apex :: apex in i.apexes && Claims(apex, domain)
  }

  /** The first integration in registry order that owns the domain. */
  function Owner(registry: seq<Integration>, domain: string): Option<string> {
    if registry == [] then None
    else if Owns(registry[0], domain) then Some(registry[0].id)
    else Owner(registry[1..], domain)
  }

  method ManagedDomainOwner(registry: seq<Integration>, domain: string) returns (owner: Option<string>)
    ensures owner == Owner(registry, domain)
  {
    var wildcard := IsWildcard(domain);
    var suffix := if wildcard then domain[2..] else domain;
    for i := 0 to |registry|
      invariant Owner(registry, domain) == Owner(registry[i..], domain)
    {
      var apexes := registry[i].apexes;
      for k := 0 to |apexes|
        invariant forall m :: 0 <= m < k ==> !Claims(apexes[m], domain)
      {
        var apex := apexes[k];
        if suffix == apex || EndsWith(suffix, "." + apex) || (wildcard && EndsWith(apex, "." + suffix)) {
          assert Claims(apex, domain);
          return Some(registry[i].id);
        }
      }
      assert !Owns(registry[i], domain);
    }
    return None;
  }

  /** Unowned means that no integration owns it. */
  lemma {:induction false} UnownedByAll(registry: seq<Integration>, domain: string)
    ensures Owner(registry, domain).None? <==> forall i :: 0 <= i < |registry| ==> !Owns(registry[i], domain)
  {
    if registry != [] {
      UnownedByAll(registry[1..], domain);
      if forall i :: 0 <= i < |registry| ==> !Owns(registry[i], domain) {
        assert forall i :: 0 <= i < |registry[1..]| ==> registry[1..][i] == registry[i + 1];
      } else {
        var i :| 0 <= i < |registry| && Owns(registry[i], domain);
        if i > 0 {
          assert registry[1..][i - 1] == registry[i];
        }
      }
    }
  }

  /** No apex of one integration lies under an apex of another. */
  predicate DisjointApexes(a: Integration, b: Integration) {
    forall x, y :: x in a.apexes && y in b.apexes ==> !Under(x, y) && !Under(y, x)
  }

  predicate Disjoint(registry: seq<Integration>) {
    forall i, j :: 0 <= i < j < |registry| ==> DisjointApexes(registry[i], registry[j])
  }

  /** Two apexes over one host: one of them lies under the other. */
  lemma ApexesOverOneHost(host: string, x: string, y: string)
    requires Under(host, x) && Under(host, y)
    ensures Under(x, y) || Under(y, x)
  {
    if host != x && host != y {
      if |x| <= |y| {
        TwoEnds(host, "." + x, "." + y);
        assert ("." + y)[1..] == y && ("." + x)[1..] == x;
        if |x| == |y| {
          assert "." + x == "." + y;
        } else {
          assert y[|y| - |"." + x|..] == ("." + y)[|"." + y| - |"." + x|..];
        }
      } else {
        TwoEnds(host, "." + y, "." + x);
        assert x[|x| - |"." + y|..] == ("." + x)[|"." + x| - |"." + y|..];
      }
    }
  }

  lemma NotBothOwn(a: Integration, b: Integration, host: string)
    requires DisjointApexes(a, b) && !IsWildcard(host) && Owns(a, host)
    ensures !Owns(b, host)
  {
    if Owns(b, host) {
      var x :| x in a.apexes && Claims(x, host);
      var y :| y in b.apexes && Claims(y, host);
      ApexesOverOneHost(host, x, y);
    }
  }

  lemma OneOwner(registry: seq<Integration>, host: string, i: nat, j: nat)
    requires Disjoint(registry) && !IsWildcard(host) && i < |registry| && j < |registry|
    requires Owns(registry[i], host) && Owns(registry[j], host)
    ensures i == j
  {
    if i < j {
      NotBothOwn(registry[i], registry[j], host);
    } else if j < i {
      NotBothOwn(registry[j], registry[i], host);
    }
  }

  lemma {:induction false} OwnerIs(registry: seq<Integration>, host: string, i: nat)
    requires Disjoint(registry) && !IsWildcard(host) && i < |registry| && Owns(registry[i], host)
    ensures Owner(registry, host) == Some(registry[i].id)
  {
    if Owns(registry[0], host) {
      OneOwner(registry, host, 0, i);
    } else {
      assert registry[1..][i - 1] == registry[i];
      assert Disjoint(registry[1..]) by {
        forall a, b | 0 <= a < b < |registry[1..]|
          ensures DisjointApexes(registry[1..][a], registry[1..][b])
        {
          assert DisjointApexes(registry[a + 1], registry[b + 1]);
        }
      }
      OwnerIs(registry[1..], host, i - 1);
    }
  }

  /** With disjoint apexes the owner of a host does not depend on the order of the registry. */
  lemma OwnerIgnoresOrder(a: seq<Integration>, b: seq<Integration>, host: string)
    requires Disjoint(a) && Disjoint(b) && !IsWildcard(host)
    requires forall i: Integration :: i in a <==> i in b
    ensures Owner(a, host) == Owner(b, host)
  {
    if exists i :: 0 <= i < |a| && Owns(a[i], host) {
      var i :| 0 <= i < |a| && Owns(a[i], host);
      assert a[i] in b;
      var j :| 0 <= j < |b| && b[j] == a[i];
      OwnerIs(a, host, i);
      OwnerIs(b, host, j);
    } else {
      UnownedByAll(a, host);
      UnownedByAll(b, host);
      forall j | 0 <= j < |b|
        ensures !Owns(b[j], host)
      {
        assert b[j] in a;
      }
    }
  }

  // ---------------------------------------------------------------------------
  // When the order of the registry matters

  /** All integrations that own the domain are one. */
  ghost predicate OneId(registry: seq<Integration>, domain: string) {
    forall x, y :: x in registry && y in registry && Owns(x, domain) && Owns(y, domain) ==> x.id == y.id
  }

  ghost predicate SameIntegrations(a: seq<Integration>, b: seq<Integration>) {
    multiset(a) == multiset(b)
  }

  lemma {:induction false} OwnerOwns(registry: seq<Integration>, domain: string) returns (x: Integration)
    requires Owner(registry, domain).Some?
    ensures x in registry && Owns(x, domain) && Owner(registry, domain) == Some(x.id)
  {
    if Owns(registry[0], domain) {
      x := registry[0];
    } else {
      x := OwnerOwns(registry[1..], domain);
    }
  }

  /** With one owning integration, any order finds it. */
  lemma OneIdIsFound(a: seq<Integration>, b: seq<Integration>, domain: string)
    requires OneId(a, domain) && SameIntegrations(a, b)
    ensures Owner(b, domain) == Owner(a, domain)
  {
    assert forall x :: x in b <==> x in multiset(b);
    assert forall x :: x in a <==> x in multiset(a);
    UnownedByAll(a, domain);
    UnownedByAll(b, domain);
    if Owner(a, domain).Some? {
      var x := OwnerOwns(a, domain);
      var i :| 0 <= i < |b| && b[i] == x;
    }
    if Owner(b, domain).Some? {
      var y := OwnerOwns(b, domain);
      var i :| 0 <= i < |a| && a[i] == y;
      var x := OwnerOwns(a, domain);
    }
  }

  /** Any owning integration comes first in some order. */
  lemma PutFirst(a: seq<Integration>, domain: string, x: Integration) returns (b: seq<Integration>)
    requires x in a && Owns(x, domain)
    ensures SameIntegrations(a, b) && Owner(b, domain) == Some(x.id)
  {
    var i :| 0 <= i < |a| && a[i] == x;
    b := [x] + (a[..i] + a[i + 1..]);
    assert a == a[..i] + [x] + a[i + 1..];
  }

  /**
   * The owner of a domain, rule or host, is the same in every order of the
   * registry if and only if all integrations that own the domain are one.
   */
  lemma OrderIgnoredExactly(a: seq<Integration>, domain: string)
    ensures (forall b :: SameIntegrations(a, b) ==> Owner(b, domain) == Owner(a, domain)) <==> OneId(a, domain)
  {
    if OneId(a, domain) {
      forall b | SameIntegrations(a, b) ensures Owner(b, domain) == Owner(a, domain) { OneIdIsFound(a, b, domain); }
    }
    if forall b :: SameIntegrations(a, b) ==> Owner(b, domain) == Owner(a, domain) {
      forall x, y | x in a && y in a && Owns(x, domain) && Owns(y, domain) ensures x.id == y.id {
        var first := PutFirst(a, domain, x);
        var second := PutFirst(a, domain, y);
      }
    }
  }

  const FIRST := Integration("first", ["a.com"])
  const SECOND := Integration("second", ["b.com"])

  /** A wildcard rule over the apexes of two integrations is such a case. */
  lemma WildcardOwnerDependsOnOrder()
    ensures Disjoint([FIRST, SECOND]) && Disjoint([SECOND, FIRST])
    ensures Owner([FIRST, SECOND], "*.com") == Some("first") && Owner([SECOND, FIRST], "*.com") == Some("second")
  {
    assert !Under("a.com", "b.com") && !Under("b.com", "a.com");
    assert "*.com"[2..] == "com" && "." + "com" == ".com";
    assert "a.com"[1..] == ".com" && "b.com"[1..] == ".com";
    assert Claims("a.com", "*.com") && Claims("b.com", "*.com");
    assert "a.com" in FIRST.apexes && "b.com" in SECOND.apexes;
  }

  // ---------------------------------------------------------------------------
  // Custom rules

  datatype Rule = Rule(methods: seq<string>, pathGuards: seq<string>)

  /** The domains of the custom integration, in the order in which they were given. */
  type Domains = seq<(string, Rule)>

  predicate HasKey(domains: Domains, key: string) {
    exists i :: 0 <= i < |domains| && domains[i].0 == key
  }

  predicate DistinctKeys(domains: Domains) {
    forall i, j :: 0 <= i < j < |domains| ==> domains[i].0 != domains[j].0
  }

  /** A rule matches a host. */
  predicate DomainMatches(pattern: string, host: string) {
    if IsWildcard(pattern) then EndsWith(host, pattern[1..]) && host != pattern[2..] else host == pattern
  }

  /** A wildcard matches exactly the hosts below its domain, at any depth; any other rule matches itself alone. */
  lemma MatchesExactly(pattern: string, host: string)
    ensures IsWildcard(pattern) ==> (DomainMatches(pattern, host) <==> exists below :: host == below + "." + pattern[2..])
    ensures !IsWildcard(pattern) ==> (DomainMatches(pattern, host) <==> host == pattern)
  {
    if IsWildcard(pattern) {
      assert pattern[1..] == "." + pattern[2..];
      EndsExactly(host, "." + pattern[2..]);
      if below :| host == below + ("." + pattern[2..]) {
        assert host == below + "." + pattern[2..];
      }
      if below :| host == below + "." + pattern[2..] {
        assert host == below + ("." + pattern[2..]);
      }
    }
  }

  predicate Overlap(left: string, right: string)
    requires left != "" && right != ""
  {
    EndsWith(left, right[1..]) || EndsWith(right, left[1..])
  }

  predicate Clear(left: string, right: string) {
    IsWildcard(left) && IsWildcard(right) ==> !Overlap(left, right)
  }

  predicate NoOverlap(domains: Domains) {
    forall i, j :: 0 <= i < j < |domains| ==> Clear(domains[i].0, domains[j].0)
  }

  datatype ConfigError = BadDomain | Duplicate | BadRule | Overlapping | ManagedElsewhere

  /** A configured domain, with its rule if the rule itself is valid. */
  datatype RawEntry = RawEntry(domain: string, rule: Option<Rule>)

  /** The domains of some entries, normalized. */
  function Normalized(raw: seq<RawEntry>): (domains: Domains)
    requires forall i :: 0 <= i < |raw| ==> raw[i].rule.Some?
    ensures |domains| == |raw| && forall i :: 0 <= i < |raw| ==> domains[i] == (Lower(raw[i].domain), raw[i].rule.value)
  {
    seq(|raw|, i requires 0 <= i < |raw| => (Lower(raw[i].domain), raw[i].rule.value))
  }

  predicate EntriesOk(raw: seq<RawEntry>) {
    (forall i :: 0 <= i < |raw| ==> IsDomainRule(raw[i].domain) && raw[i].rule.Some?) && DistinctKeys(Normalized(raw))
  }

  lemma RepeatedDomain(raw: seq<RawEntry>, k: nat, i: nat)
    requires k < i < |raw| && Lower(raw[k].domain) == Lower(raw[i].domain)
    ensures !EntriesOk(raw)
  {
    if forall m :: 0 <= m < |raw| ==> raw[m].rule.Some? {
      assert Normalized(raw)[k].0 == Normalized(raw)[i].0;
    }
  }

  lemma OneMoreEntry(raw: seq<RawEntry>, entry: RawEntry)
    requires EntriesOk(raw) && IsDomainRule(entry.domain) && entry.rule.Some?
    requires !HasKey(Normalized(raw), Lower(entry.domain))
    ensures EntriesOk(raw + [entry])
    ensures Normalized(raw + [entry]) == Normalized(raw) + [(Lower(entry.domain), entry.rule.value)]
  {
    assert Normalized(raw + [entry]) == Normalized(raw) + [(Lower(entry.domain), entry.rule.value)];
  }

  method Parse(raw: seq<RawEntry>) returns (result: Result<Domains, ConfigError>)
    ensures result.Ok? <==> EntriesOk(raw) && NoOverlap(Normalized(raw))
    ensures result.Ok? ==> result.value == Normalized(raw)
  {
    var domains: Domains := [];
    for i := 0 to |raw|
      invariant EntriesOk(raw[..i]) && domains == Normalized(raw[..i])
    {
      var entry := raw[i];
      if !IsDomainRule(entry.domain) {
        return Error(BadDomain);
      }
      var normalized := Lower(entry.domain);
      if HasKey(domains, normalized) {
        var k :| 0 <= k < |domains| && domains[k].0 == normalized;
        RepeatedDomain(raw, k, i);
        return Error(Duplicate);
      }
      if entry.rule.None? {
        return Error(BadRule);
      }
      OneMoreEntry(raw[..i], entry);
      assert raw[..i + 1] == raw[..i] + [entry];
      domains := domains + [(normalized, entry.rule.value)];
    }
    assert raw[..|raw|] == raw;
    var overlap := HasOverlap(domains);
    if overlap {
      return Error(Overlapping);
    }
    return Ok(domains);
  }

  /** Compares every wildcard with every later one. */
  method HasOverlap(domains: Domains) returns (found: bool)
    ensures found <==> !NoOverlap(domains)
  {
    for i := 0 to |domains|
      invariant forall k, m :: 0 <= k < i && k < m < |domains| ==> Clear(domains[k].0, domains[m].0)
    {
      for j := i + 1 to |domains|
        invariant forall m :: i < m < j ==> Clear(domains[i].0, domains[m].0)
      {
        if IsWildcard(domains[i].0) && IsWildcard(domains[j].0) && Overlap(domains[i].0, domains[j].0) {
          return true;
        }
      }
    }
    return false;
  }

  /** The network policy accepts its custom domains only if no integration owns any of them. */
  method ParseNetworkControls(registry: seq<Integration>, raw: seq<RawEntry>) returns (result: Result<Domains, ConfigError>)
    ensures result.Ok? ==> EntriesOk(raw) && result.value == Normalized(raw) && Accepted(registry, result.value)
    ensures result.Error? ==> !EntriesOk(raw) || !Accepted(registry, Normalized(raw))
  {
    result := Parse(raw);
    if result.Ok? {
      var domains := result.value;
      for i := 0 to |domains|
        invariant forall k :: 0 <= k < i ==> Owner(registry, domains[k].0).None?
      {
        var owner := ManagedDomainOwner(registry, domains[i].0);
        if owner.Some? {
          return Error(ManagedElsewhere);
        }
      }
      forall i | 0 <= i < |domains|
        ensures IsDomainRule(domains[i].0)
      {
        LowerKeepsDomains(raw[i].domain);
      }
    }
  }

  predicate Accepted(registry: seq<Integration>, domains: Domains) {
    && DistinctKeys(domains) && NoOverlap(domains)
    && (forall i :: 0 <= i < |domains| ==> IsDomainRule(domains[i].0))
    && (forall i :: 0 <= i < |domains| ==> Owner(registry, domains[i].0).None?)
  }

  lemma LowerKeepsDomain(s: string)
    requires IsDomain(s)
    ensures IsDomain(Lower(s))
  {
    var k :| 0 <= k < |s| && s[k] == '.';
    assert Lower(s)[k] == '.';
  }

  lemma LowerKeepsDomains(s: string)
    requires IsDomainRule(s)
    ensures IsDomainRule(Lower(s))
  {
    if IsDomain(s) {
      LowerKeepsDomain(s);
    } else {
      LowerKeepsDomain(s[2..]);
      assert s[0] == s[..2][0] && s[1] == s[..2][1];
      assert Lower(s)[2..] == Lower(s[2..]) && Lower(s)[..2] == "*.";
    }
  }

  // ---------------------------------------------------------------------------
  // No competition

  /** A wildcard that matches a host under an apex claims the apex. */
  lemma WildcardClaims(pattern: string, host: string, apex: string)
    requires IsWildcard(pattern) && EndsWith(host, pattern[1..]) && Under(host, apex)
    ensures Claims(apex, pattern)
  {
    var suffix := pattern[2..];
    assert pattern[1] == pattern[..2][1];
    assert pattern[1..] == "." + suffix;
    if host == apex {
      assert EndsWith(apex, "." + suffix);
    } else if |suffix| <= |apex| {
      TwoEnds(host, "." + suffix, "." + apex);
      if |suffix| == |apex| {
        assert "." + suffix == "." + apex;
        assert ("." + suffix)[1..] == suffix && ("." + apex)[1..] == apex;
      } else {
        assert apex[|apex| - |"." + suffix|..] == ("." + apex)[|"." + apex| - |"." + suffix|..];
      }
    } else {
      TwoEnds(host, "." + apex, "." + suffix);
      assert suffix[|suffix| - |"." + apex|..] == ("." + suffix)[|"." + suffix| - |"." + apex|..];
    }
  }

  /** The same for a host that itself looks like a wildcard rule. */
  lemma WildcardClaimsWildcard(pattern: string, host: string, apex: string)
    requires IsWildcard(pattern) && IsDomain(pattern[2..]) && IsWildcard(host) && EndsWith(host, pattern[1..])
    requires Claims(apex, host)
    ensures Claims(apex, pattern)
  {
    var suffix, rest := pattern[2..], host[2..];
    assert pattern[1] == pattern[..2][1] && pattern[1..] == "." + suffix;
    assert host[0] == host[..2][0] && host[1] == host[..2][1];
    if |suffix| <= |rest| {
      assert EndsWith(host, "." + rest) by {
        assert host[1..] == "." + rest;
      }
      if Under(rest, apex) {
        assert EndsWith(host, "." + apex) by {
          if rest == apex {
            assert host[1..] == "." + apex;
          } else {
            assert host[|host| - |"." + apex|..] == rest[|rest| - |"." + apex|..];
          }
        }
        WildcardClaims(pattern, host, apex);
      } else {
        TwoEnds(host, "." + suffix, "." + rest);
        EndOfEnd(apex, "." + rest, "." + suffix);
      }
    } else {
      assert false;
    }
  }

  /** In every accepted policy, no custom rule matches a host that a managed integration owns. */
  lemma RulesNeverReachManagedHosts(registry: seq<Integration>, domains: Domains, i: nat, host: string)
    requires Accepted(registry, domains) && i < |domains| && DomainMatches(domains[i].0, host)
    ensures Owner(registry, host).None?
  {
    var pattern := domains[i].0;
    UnownedByAll(registry, pattern);
    UnownedByAll(registry, host);
    if IsWildcard(pattern) {
      forall k | 0 <= k < |registry|
        ensures !Owns(registry[k], host)
      {
        if Owns(registry[k], host) {
          var apex :| apex in registry[k].apexes && Claims(apex, host);
          MatchedClaims(pattern, host, apex);
          assert Owns(registry[k], pattern);
        }
      }
    }
  }

  lemma MatchedClaims(pattern: string, host: string, apex: string)
    requires IsDomainRule(pattern) && IsWildcard(pattern) && DomainMatches(pattern, host) && Claims(apex, host)
    ensures Claims(apex, pattern)
  {
    assert IsDomain(pattern[2..]) by {
      if IsDomain(pattern) {
        assert pattern[0] == pattern[..2][0];
      }
    }
    if IsWildcard(host) {
      WildcardClaimsWildcard(pattern, host, apex);
    } else {
      WildcardClaims(pattern, host, apex);
    }
  }

  // ---------------------------------------------------------------------------
  // One rule per host

  /** At most one wildcard of an accepted policy matches a host. */
  lemma OneWildcardMatches(domains: Domains, host: string, i: nat, j: nat)
    requires NoOverlap(domains) && i < |domains| && j < |domains|
    requires IsWildcard(domains[i].0) && IsWildcard(domains[j].0)
    requires DomainMatches(domains[i].0, host) && DomainMatches(domains[j].0, host)
    ensures i == j
  {
    if i < j {
      OverlapByHost(domains[i].0, domains[j].0, host);
    } else if j < i {
      OverlapByHost(domains[j].0, domains[i].0, host);
    }
  }

  lemma OverlapByHost(left: string, right: string, host: string)
    requires IsWildcard(left) && IsWildcard(right) && DomainMatches(left, host) && DomainMatches(right, host)
    ensures Overlap(left, right)
  {
    if |left| <= |right| {
      TwoEnds(host, left[1..], right[1..]);
      EndOfEnd(right, right[1..], left[1..]);
    } else {
      TwoEnds(host, right[1..], left[1..]);
      EndOfEnd(left, left[1..], right[1..]);
    }
  }

  /** The positions of the rules that match a host. */
  function Matching(domains: Domains, host: string): (found: seq<nat>)
    ensures forall k :: 0 <= k < |found| ==> found[k] < |domains| && DomainMatches(domains[found[k]].0, host)
  {
    if domains == [] then []
    else
      var n := |domains| - 1;
      Matching(domains[..n], host) + if DomainMatches(domains[n].0, host) then [n] else []
  }

  lemma {:induction false} MatchingIsComplete(domains: Domains, host: string, i: nat)
    requires i < |domains| && DomainMatches(domains[i].0, host)
    ensures i in Matching(domains, host)
    decreases |domains|
  {
    if i < |domains| - 1 {
      MatchingIsComplete(domains[..|domains| - 1], host, i);
    }
  }

  /** The first of the longest patterns. */
  function Longest(domains: Domains, found: seq<nat>): (i: nat)
    requires found != [] && forall k :: 0 <= k < |found| ==> found[k] < |domains|
    ensures i in found
  {
    if |found| == 1 then found[0]
    else
      var best := Longest(domains, found[..|found| - 1]);
      var last := found[|found| - 1];
      if |domains[last].0| > |domains[best].0| then last else best
  }

  function Lookup(domains: Domains, key: string): (r: Option<Rule>)
    ensures r.Some? ==> HasKey(domains, key)
  {
    if domains == [] then None
    else if domains[|domains| - 1].0 == key then Some(domains[|domains| - 1].1)
    else Lookup(domains[..|domains| - 1], key)
  }

  /** An exact rule first, then the longest wildcard. */
  function RuleForHost(domains: Domains, host: string): Option<Rule> {
    var name := Lower(host);
    var exact := Lookup(domains, name);
    if exact.Some? then exact
    else if Matching(domains, name) == [] then None
    else Some(domains[Longest(domains, Matching(domains, name))].1)
  }

  lemma {:induction false} LookupFinds(domains: Domains, key: string)
    requires DistinctKeys(domains)
    ensures Lookup(domains, key).Some? <==> HasKey(domains, key)
    ensures forall i :: 0 <= i < |domains| && domains[i].0 == key ==> Lookup(domains, key) == Some(domains[i].1)
    decreases |domains|
  {
    if domains != [] {
      LookupFinds(domains[..|domains| - 1], key);
      if HasKey(domains, key) && domains[|domains| - 1].0 != key {
        var i :| 0 <= i < |domains| && domains[i].0 == key;
        assert domains[..|domains| - 1][i].0 == key;
      }
    }
  }

  /** The rule that applies: by exact name, or else by the one wildcard that matches. */
  predicate Applies(domains: Domains, name: string, i: nat) {
    i < |domains| && (domains[i].0 == name || (!HasKey(domains, name) && DomainMatches(domains[i].0, name)))
  }

  lemma RuleIsTheOneThatApplies(domains: Domains, host: string, i: nat)
    requires DistinctKeys(domains) && NoOverlap(domains) && Applies(domains, Lower(host), i)
    ensures RuleForHost(domains, host) == Some(domains[i].1)
  {
    var name := Lower(host);
    LookupFinds(domains, name);
    if domains[i].0 == name {
      assert HasKey(domains, name);
    } else {
      MatchingIsComplete(domains, name, i);
      var best := Longest(domains, Matching(domains, name));
      var k :| 0 <= k < |Matching(domains, name)| && Matching(domains, name)[k] == best;
      assert DomainMatches(domains[best].0, name);
      assert IsWildcard(domains[best].0) && IsWildcard(domains[i].0);
      OneWildcardMatches(domains, name, i, best);
    }
  }

  /** Whatever rule is found applies. */
  lemma FoundRuleApplies(domains: Domains, host: string)
    requires DistinctKeys(domains) && RuleForHost(domains, host).Some?
    ensures exists i: nat :: Applies(domains, Lower(host), i)
  {
    var name := Lower(host);
    LookupFinds(domains, name);
    if HasKey(domains, name) {
      var i :| 0 <= i < |domains| && domains[i].0 == name;
      assert Applies(domains, name, i);
    } else {
      assert Applies(domains, name, Matching(domains, name)[0]);
    }
  }

  /** The rule for a host does not depend on the order of the rules. */
  lemma RuleIgnoresOrder(a: Domains, b: Domains, host: string)
    requires DistinctKeys(a) && NoOverlap(a) && DistinctKeys(b) && NoOverlap(b)
    requires forall d: (string, Rule) :: d in a <==> d in b
    ensures RuleForHost(a, host) == RuleForHost(b, host)
  {
    if RuleForHost(a, host).Some? {
      SameRuleIn(a, b, host);
    } else if RuleForHost(b, host).Some? {
      SameRuleIn(b, a, host);
    }
  }

  lemma SameRuleIn(a: Domains, b: Domains, host: string)
    requires DistinctKeys(a) && NoOverlap(a) && DistinctKeys(b) && NoOverlap(b)
    requires (forall d: (string, Rule) :: d in a <==> d in b) && RuleForHost(a, host).Some?
    ensures RuleForHost(b, host) == RuleForHost(a, host)
  {
    FoundRuleApplies(a, host);
    var i: nat :| Applies(a, Lower(host), i);
    CarriesOver(a, b, Lower(host), i);
    var j: nat :| Applies(b, Lower(host), j) && b[j] == a[i];
    RuleIsTheOneThatApplies(a, host, i);
    RuleIsTheOneThatApplies(b, host, j);
  }

  lemma CarriesOver(a: Domains, b: Domains, name: string, i: nat)
    requires Applies(a, name, i) && forall d: (string, Rule) :: d in a <==> d in b
    ensures exists j: nat :: Applies(b, name, j) && b[j] == a[i]
  {
    assert a[i] in b;
    var j :| 0 <= j < |b| && b[j] == a[i];
    if HasKey(b, name) {
      var k :| 0 <= k < |b| && b[k].0 == name;
      assert b[k] in a;
    }
    assert Applies(b, name, j);
  }
}
