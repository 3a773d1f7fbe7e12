/** `.sol` domain names: recognising the syntax, resolving a domain to its
    owner, and listing the domains a wallet owns. Every call into the name
    service (key derivation, owner lookup, account scan, reverse lookup) is a
    parameter that says how the call settles. */
module NameService {
  import opened Common

  const Suffix: string := ".sol"

  /** Whether `value` looks like a domain: at least one character followed
      by ".sol". */
  predicate HasDomainSyntax(value: string)
  {
    |value| > 4 && value[|value| - 4..] == Suffix
  }

  /** `domain.slice(0, -4)`: the domain without its last four characters,
      and the empty string for anything shorter. */
  function DomainName(domain: string): (name: string)
    ensures name <= domain
    ensures |domain| >= 4 ==> |name| == |domain| - 4
    ensures |domain| < 4 ==> name == ""
  {
    if |domain| >= 4 then domain[..|domain| - 4] else ""
  }

  /** Round trip: a string with domain syntax is a non-empty name with ".sol"
      appended, and stripping the suffix gives that name back. */
  lemma DomainSyntaxRoundTrip(domain: string)
    requires HasDomainSyntax(domain)
    ensures DomainName(domain) != ""
    ensures DomainName(domain) + Suffix == domain
  {
  }

  /** The other direction: every non-empty name with ".sol" appended has
      domain syntax and strips back to the name. */
  lemma NameRoundTrip(name: string)
    requires name != ""
    ensures HasDomainSyntax(name + Suffix)
    ensures DomainName(name + Suffix) == name
  {
  }

  /** Domain syntax, characterised without indices. ".sol" alone is not a
      domain. */
  lemma DomainSyntaxMeansNamePlusSuffix(value: string)
    ensures HasDomainSyntax(value) <==> exists name :: name != "" && value == name + Suffix
    ensures !HasDomainSyntax(Suffix)
  {
    if HasDomainSyntax(value) {
      DomainSyntaxRoundTrip(value);
    }
    if exists name :: name != "" && value == name + Suffix {
      var name :| name != "" && value == name + Suffix;
      NameRoundTrip(name);
    }
  }

  // ---------------------------------------------------------------------
  // Domain lookup

  /** An owned domain: the domain's name-account key and its owner. */
  datatype DomainOwner = DomainOwner(address: Address, owner: Address)

  /** How a domain lookup settles: the promise rejects, resolves to `null`,
      or resolves to the domain key and owner. */
  datatype DomainLookup = Rejected | NotFound | Found(info: DomainOwner)

  /** Resolves the owner of `domain`. `deriveKey` is the key derivation for a
      name under the .sol top-level domain; it runs outside the error
      handler, so its failure rejects. `ownerOf` is the registry lookup,
      whose failure and whose missing owner both give `NotFound`. */
  function GetDomainInfo(domain: string, deriveKey: string -> Outcome<Address>,
                         ownerOf: Address -> Outcome<Option<Address>>): (r: DomainLookup)
    ensures deriveKey(DomainName(domain)).Failed? <==> r == Rejected
    ensures r == NotFound <==>
              deriveKey(DomainName(domain)).Ok? &&
              (ownerOf(deriveKey(DomainName(domain)).value).Failed? ||
               ownerOf(deriveKey(DomainName(domain)).value) == Ok(None))
    ensures r.Found? ==>
              deriveKey(DomainName(domain)) == Ok(r.info.address) &&
              ownerOf(r.info.address) == Ok(Some(r.info.owner))
  {
    var key := deriveKey(DomainName(domain));
    if key.Failed? then Rejected
    else
      var registry := ownerOf(key.value);
      if registry.Ok? && registry.value.Some? then Found(DomainOwner(key.value, registry.value.value))
      else NotFound
  }

  /** For a well-formed domain the key is derived from exactly the name in
      front of ".sol". */
  lemma GetDomainInfoUsesName(name: string, deriveKey: string -> Outcome<Address>,
                              ownerOf: Address -> Outcome<Option<Address>>)
    requires name != ""
    requires deriveKey(name).Ok? && ownerOf(deriveKey(name).value).Ok?
    requires ownerOf(deriveKey(name).value).value.Some?
    ensures GetDomainInfo(name + Suffix, deriveKey, ownerOf) ==
              Found(DomainOwner(deriveKey(name).value, ownerOf(deriveKey(name).value).value.value))
  {
  }

  // ---------------------------------------------------------------------
  // Domains of a wallet

  /** A domain a wallet owns, as shown to the user. */
  datatype DomainInfo = DomainInfo(name: string, address: Address)

  /** The hook's state: the last resolved list (absent until one resolves)
      and whether a resolution is under way. */
  datatype UserDomainsState = UserDomainsState(result: Option<seq<DomainInfo>>, loading: bool)

  /** One run of the hook's effect: the state it leaves, whether it asked the
      name service at all, the loading flags it set, in order, and whether the
      effect's promise rejected. */
  datatype DomainsRun = DomainsRun(state: UserDomainsState, queried: bool, loadingUpdates: seq<bool>,
                                   rejected: bool)

  /** Domain lookups run on mainnet and on custom endpoints only. */
  predicate DomainsEnabled(cluster: Cluster)
  {
    cluster == MainnetBeta || cluster == Custom
  }

  /** Names every discovered domain account by reverse lookup, in order; one
      failed lookup fails the whole batch. */
  function ReverseLookupAll(addresses: seq<Address>, reverseLookup: Address -> Outcome<string>):
    (r: Outcome<seq<DomainInfo>>)
    ensures r.Ok? <==> forall i :: 0 <= i < |addresses| ==> reverseLookup(addresses[i]).Ok?
    ensures r.Ok? ==> |r.value| == |addresses|
    ensures r.Ok? ==> forall i :: 0 <= i < |addresses| ==>
              r.value[i] == DomainInfo(reverseLookup(addresses[i]).value + Suffix, addresses[i])
    decreases |addresses|
  {
    if addresses == [] then Ok([])
    else
      var head := reverseLookup(addresses[0]);
      var tail := ReverseLookupAll(addresses[1..], reverseLookup);
      if head.Failed? || tail.Failed? then Failed
      else Ok([DomainInfo(head.value + Suffix, addresses[0])] + tail.value)
  }

  /** Inserts `d` in front of the first entry it does not sort after. */
  function InsertByName(d: DomainInfo, sorted: seq<DomainInfo>, compare: (string, string) -> int):
    (r: seq<DomainInfo>)
    ensures multiset(r) == multiset(sorted) + multiset{d}
    ensures |r| > 0 && (r[0] == d || (sorted != [] && r[0] == sorted[0]))
    decreases |sorted|
  {
    if sorted == [] || compare(d.name, sorted[0].name) <= 0 then [d] + sorted
    else
      assert sorted == [sorted[0]] + sorted[1..];
      [sorted[0]] + InsertByName(d, sorted[1..], compare)
  }

  /** The list sorted by name under `compare`, a stand-in for the
      locale-aware string comparison. */
  function SortByName(domains: seq<DomainInfo>, compare: (string, string) -> int): (r: seq<DomainInfo>)
    ensures multiset(r) == multiset(domains)
    decreases |domains|
  {
    if domains == [] then []
    else
      assert domains == [domains[0]] + domains[1..];
      InsertByName(domains[0], SortByName(domains[1..], compare), compare)
  }

  predicate SortedByName(domains: seq<DomainInfo>, compare: (string, string) -> int)
  {
    forall i :: 0 < i < |domains| ==> compare(domains[i - 1].name, domains[i].name) <= 0
  }

  /** A comparator whose sign flips with its arguments, as `localeCompare`'s
      does. */
  ghost predicate SignConsistent(compare: (string, string) -> int)
  {
    forall a, b :: compare(a, b) > 0 ==> compare(b, a) <= 0
  }

  lemma {:induction false} InsertByNameSorted(d: DomainInfo, sorted: seq<DomainInfo>,
                                              compare: (string, string) -> int)
    requires SignConsistent(compare) && SortedByName(sorted, compare)
    ensures SortedByName(InsertByName(d, sorted, compare), compare)
    decreases |sorted|
  {
    if sorted != [] && compare(d.name, sorted[0].name) > 0 {
      var rest := InsertByName(d, sorted[1..], compare);
      InsertByNameSorted(d, sorted[1..], compare);
      var r := [sorted[0]] + rest;
      assert r == InsertByName(d, sorted, compare);
      forall i | 0 < i < |r|
        ensures compare(r[i - 1].name, r[i].name) <= 0
      {
        if i == 1 {
          if rest[0] == d {
            assert compare(sorted[0].name, d.name) <= 0;
          } else {
            assert rest[0] == sorted[1];
          }
        } else {
          assert r[i - 1] == rest[i - 2] && r[i] == rest[i - 1];
        }
      }
    }
  }

  /** Sorting orders the list by name whenever the comparator is sign
      consistent. */
  lemma {:induction false} SortByNameSorted(domains: seq<DomainInfo>, compare: (string, string) -> int)
    requires SignConsistent(compare)
    ensures SortedByName(SortByName(domains, compare), compare)
    decreases |domains|
  {
    if domains != [] {
      SortByNameSorted(domains[1..], compare);
      InsertByNameSorted(domains[0], SortByName(domains[1..], compare), compare);
    }
  }

  /** Whether a run of the effect stores a new list: the cluster is
      enabled, the connection is created, the account scan succeeds and
      every reverse lookup succeeds. */
  predicate Succeeds(cluster: Cluster, connection: Outcome<()>, domainAccounts: Outcome<seq<Address>>,
                     reverseLookup: Address -> Outcome<string>)
  {
    && DomainsEnabled(cluster)
    && connection.Ok?
    && domainAccounts.Ok?
    && forall i :: 0 <= i < |domainAccounts.value| ==> reverseLookup(domainAccounts.value[i]).Ok?
  }

  /** One run of the effect that lists a wallet's domains. Off mainnet and
      custom endpoints it does nothing. It then creates the connection
      (`connection`), outside the error handler: a failure there rejects
      before any state changes. Otherwise it raises the loading flag, scans
      for the wallet's domain accounts, names each by reverse lookup with
      ".sol" appended, sorts by name and stores the list; any failure keeps
      the previous list, and the loading flag always ends lowered. */
  function ResolveUserDomains(state: UserDomainsState, cluster: Cluster, connection: Outcome<()>,
                              domainAccounts: Outcome<seq<Address>>,
                              reverseLookup: Address -> Outcome<string>,
                              compare: (string, string) -> int): (run: DomainsRun)
    ensures !DomainsEnabled(cluster) ==> run == DomainsRun(state, false, [], false)
    ensures DomainsEnabled(cluster) && connection.Failed? ==> run == DomainsRun(state, false, [], true)
    ensures DomainsEnabled(cluster) && connection.Ok? ==>
              run.queried && run.loadingUpdates == [true, false] && !run.rejected
    ensures DomainsEnabled(cluster) && connection.Ok? ==> !run.state.loading
    ensures !run.state.loading || run.state == state
    ensures run.state.result != state.result ==> Succeeds(cluster, connection, domainAccounts, reverseLookup)
    ensures Succeeds(cluster, connection, domainAccounts, reverseLookup) ==>
              && run.state.result.Some?
              && |run.state.result.value| == |domainAccounts.value|
              && multiset(run.state.result.value) == multiset(ReverseLookupAll(domainAccounts.value, reverseLookup).value)
              && forall d :: d in run.state.result.value <==>
                   exists i :: 0 <= i < |domainAccounts.value| &&
                     d == DomainInfo(reverseLookup(domainAccounts.value[i]).value + Suffix,
                                     domainAccounts.value[i])
    ensures !Succeeds(cluster, connection, domainAccounts, reverseLookup) ==> run.state.result == state.result
  {
    if !DomainsEnabled(cluster) then DomainsRun(state, false, [], false)
    else if connection.Failed? then DomainsRun(state, false, [], true)
    else
      var resolved := if domainAccounts.Failed? then Failed
                      else ReverseLookupAll(domainAccounts.value, reverseLookup);
      if resolved.Failed? then DomainsRun(UserDomainsState(state.result, false), true, [true, false], false)
      else
        ContentsOfSorted(domainAccounts.value, reverseLookup, compare);
        DomainsRun(UserDomainsState(Some(SortByName(resolved.value, compare)), false), true, [true, false], false)
  }

  lemma ContentsOfSorted(addresses: seq<Address>, reverseLookup: Address -> Outcome<string>,
                         compare: (string, string) -> int)
    requires ReverseLookupAll(addresses, reverseLookup).Ok?
    ensures var sorted := SortByName(ReverseLookupAll(addresses, reverseLookup).value, compare);
            && |sorted| == |addresses|
            && forall d :: d in sorted <==>
                 exists i :: 0 <= i < |addresses| && reverseLookup(addresses[i]).Ok? &&
                   d == DomainInfo(reverseLookup(addresses[i]).value + Suffix, addresses[i])
  {
    var resolved := ReverseLookupAll(addresses, reverseLookup).value;
    var sorted := SortByName(resolved, compare);
    assert |sorted| == |multiset(sorted)| == |multiset(resolved)| == |resolved|;
    forall d
      ensures d in sorted <==>
                exists i :: 0 <= i < |addresses| && reverseLookup(addresses[i]).Ok? &&
                  d == DomainInfo(reverseLookup(addresses[i]).value + Suffix, addresses[i])
    {
      assert d in sorted <==> d in multiset(sorted);
      assert d in resolved <==> d in multiset(resolved);
      if d in resolved {
        var i :| 0 <= i < |resolved| && resolved[i] == d;
        assert reverseLookup(addresses[i]).Ok?;
      }
    }
  }

  /** The stored list is sorted by name whenever the comparator is sign
      consistent. */
  lemma ResolvedDomainsSorted(state: UserDomainsState, cluster: Cluster, connection: Outcome<()>,
                              domainAccounts: Outcome<seq<Address>>,
                              reverseLookup: Address -> Outcome<string>,
                              compare: (string, string) -> int)
    requires SignConsistent(compare)
    requires Succeeds(cluster, connection, domainAccounts, reverseLookup)
    ensures SortedByName(ResolveUserDomains(state, cluster, connection, domainAccounts, reverseLookup, compare)
                           .state.result.value, compare)
  {
    SortByNameSorted(ReverseLookupAll(domainAccounts.value, reverseLookup).value, compare);
  }
}
