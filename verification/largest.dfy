/** The largest token accounts of a mint: the fetch routine that drives a
    cache entry from `Fetching` to a terminal status, and the two hooks that
    read an entry and trigger a fetch. The RPC calls are parameters saying how
    each call settles; the cache reducer that consumes the dispatched actions
    is not part of this model. */
module Largest {
  import opened Common

  /** Lifecycle status of a cache entry. */
  datatype FetchStatus = Fetching | Fetched | FetchFailed

  /** One of the largest accounts of a mint, with its owner when known. */
  datatype TokenAccountData = TokenAccountData(uiAmountString: string, address: Address, owner: Option<Address>)

  datatype LargestAccounts = LargestAccounts(largest: seq<TokenAccountData>)

  /** An `Update` action sent to the cache for entry `key` on endpoint `url`. */
  datatype UpdateAction = Update(key: Address, url: string, status: FetchStatus, data: Option<LargestAccounts>)

  /** An item of the largest-accounts RPC answer. */
  datatype LargestAccount = LargestAccount(address: Address, uiAmountString: string)

  /** A call to the error reporter, tagged with the endpoint. */
  datatype Report = Report(url: string)

  /** Everything one fetch does that others can observe: the actions it
      dispatches and the errors it reports, each in order. */
  datatype FetchRun = FetchRun(dispatched: seq<UpdateAction>, reports: seq<Report>)

  /** Errors are reported unless the endpoint is a private custom one. */
  predicate Reports(cluster: Cluster)
  {
    cluster != Custom
  }

  /** The account-info lookup for one account: it fails, or it settles with
      the account's owner, absent when the account has no value. */
  type OwnerLookup = Address -> Outcome<Option<Address>>

  /** The entry for one account: address and amount copied, the owner taken
      from a successful lookup and left out after a failed one. */
  function WithOwner(account: LargestAccount, lookup: Outcome<Option<Address>>): (d: TokenAccountData)
    ensures d.address == account.address && d.uiAmountString == account.uiAmountString
    ensures lookup.Failed? ==> d.owner.None?
    ensures lookup.Ok? ==> d.owner == lookup.value
  {
    if lookup.Ok? then TokenAccountData(account.uiAmountString, account.address, lookup.value)
    else TokenAccountData(account.uiAmountString, account.address, None)
  }

  /** How many owner lookups fail for `accounts`. */
  function FailedLookups(accounts: seq<LargestAccount>, ownerOf: OwnerLookup): nat
    decreases |accounts|
  {
    if accounts == [] then 0
    else (if ownerOf(accounts[0].address).Failed? then 1 else 0) + FailedLookups(accounts[1..], ownerOf)
  }

  /** Looks up the owner of every account, in order. A failed lookup is
      contained: it degrades that entry only and is reported unless the
      endpoint is custom. */
  function WithOwners(accounts: seq<LargestAccount>, ownerOf: OwnerLookup, cluster: Cluster, url: string):
    (r: (seq<TokenAccountData>, seq<Report>))
    ensures |r.0| == |accounts|
    ensures forall i :: 0 <= i < |accounts| ==> r.0[i] == WithOwner(accounts[i], ownerOf(accounts[i].address))
    ensures |r.1| == (if Reports(cluster) then FailedLookups(accounts, ownerOf) else 0)
    ensures forall k :: 0 <= k < |r.1| ==> r.1[k] == Report(url)
    decreases |accounts|
  {
    if accounts == [] then ([], [])
    else
      var lookup := ownerOf(accounts[0].address);
      var rest := WithOwners(accounts[1..], ownerOf, cluster, url);
      var reported := if lookup.Failed? && Reports(cluster) then [Report(url)] else [];
      ([WithOwner(accounts[0], lookup)] + rest.0, reported + rest.1)
  }

  /** Fetches the largest accounts of mint `pubkey`: marks the entry as
      fetching, asks for the largest accounts (`largest`), looks up each
      account's owner (`ownerOf`), and finishes the entry as fetched with the
      accounts, or as failed when the first call fails. */
  function FetchLargestAccounts(pubkey: Address, cluster: Cluster, url: string,
                                largest: Outcome<seq<LargestAccount>>, ownerOf: OwnerLookup): (run: FetchRun)
    ensures |run.dispatched| == 2
    ensures run.dispatched[0] == Update(pubkey, url, Fetching, None)
    ensures run.dispatched[1].key == pubkey && run.dispatched[1].url == url
    ensures run.dispatched[1].status != Fetching
    ensures run.dispatched[1].status == Fetched <==> largest.Ok?
    ensures run.dispatched[1].data.Some? <==> largest.Ok?
    ensures largest.Ok? ==>
              var entries := run.dispatched[1].data.value.largest;
              && |entries| == |largest.value|
              && forall i :: 0 <= i < |entries| ==>
                   && entries[i].address == largest.value[i].address
                   && entries[i].uiAmountString == largest.value[i].uiAmountString
                   && (ownerOf(largest.value[i].address).Failed? ==> entries[i].owner.None?)
                   && (ownerOf(largest.value[i].address).Ok? ==>
                         entries[i].owner == ownerOf(largest.value[i].address).value)
    ensures forall k :: 0 <= k < |run.reports| ==> run.reports[k] == Report(url)
    ensures !Reports(cluster) ==> run.reports == []
    ensures Reports(cluster) && largest.Failed? ==> |run.reports| == 1
    ensures Reports(cluster) && largest.Ok? ==> |run.reports| == FailedLookups(largest.value, ownerOf)
  {
    var start := Update(pubkey, url, Fetching, None);
    if largest.Failed? then
      var reported := if Reports(cluster) then [Report(url)] else [];
      FetchRun([start, Update(pubkey, url, FetchFailed, None)], reported)
    else
      var withOwners := WithOwners(largest.value, ownerOf, cluster, url);
      FetchRun([start, Update(pubkey, url, Fetched, Some(LargestAccounts(withOwners.0)))], withOwners.1)
  }

  /** Owner lookups never change the outcome of the fetch: with the same
      answer to the first call, any two ways the lookups can settle end with
      the same status, and the entries differ at most in their owners. */
  lemma OwnerLookupsAreContained(pubkey: Address, cluster: Cluster, url: string,
                                 largest: Outcome<seq<LargestAccount>>, ownerOf: OwnerLookup, other: OwnerLookup)
    ensures var one := FetchLargestAccounts(pubkey, cluster, url, largest, ownerOf);
            var two := FetchLargestAccounts(pubkey, cluster, url, largest, other);
            && one.dispatched[1].status == two.dispatched[1].status
            && (largest.Ok? ==>
                  && |one.dispatched[1].data.value.largest| == |two.dispatched[1].data.value.largest|
                  && forall i :: 0 <= i < |largest.value| ==>
                       one.dispatched[1].data.value.largest[i].(owner := None) ==
                         two.dispatched[1].data.value.largest[i].(owner := None))
  {
  }

  /** A run whose owner lookups all fail reports once per account on a
      public endpoint. */
  lemma {:induction false} AllLookupsFailing(accounts: seq<LargestAccount>, failing: OwnerLookup)
    requires forall a :: failing(a) == Failed
    ensures FailedLookups(accounts, failing) == |accounts|
    decreases |accounts|
  {
    if accounts != [] {
      AllLookupsFailing(accounts[1..], failing);
    }
  }

  /** A two-account fetch on mainnet where the first owner lookup succeeds
      and the second fails. The entry ends
      fetched with both accounts, the second without an owner, and the one
      failure is reported. */
  lemma PartialEnrichmentScenario(ownerOf: OwnerLookup)
    requires ownerOf("SUB1") == Ok(Some("OWNER1")) && ownerOf("SUB2") == Failed
    ensures var run := FetchLargestAccounts("ACC1", MainnetBeta, "https://mainnet",
                                            Ok([LargestAccount("SUB1", "10"), LargestAccount("SUB2", "5")]),
                                            ownerOf);
            && run.dispatched[1] ==
                 Update("ACC1", "https://mainnet", Fetched,
                        Some(LargestAccounts([TokenAccountData("10", "SUB1", Some("OWNER1")),
                                              TokenAccountData("5", "SUB2", None)])))
            && run.reports == [Report("https://mainnet")]
  {
    var accounts := [LargestAccount("SUB1", "10"), LargestAccount("SUB2", "5")];
    assert accounts[1..] == [LargestAccount("SUB2", "5")];
    assert accounts[1..][1..] == [];
    var entries := WithOwners(accounts, ownerOf, MainnetBeta, "https://mainnet").0;
    assert entries[0] == TokenAccountData("10", "SUB1", Some("OWNER1"));
    assert entries[1] == TokenAccountData("5", "SUB2", None);
    assert entries == [TokenAccountData("10", "SUB1", Some("OWNER1")), TokenAccountData("5", "SUB2", None)];
  }

  // ---------------------------------------------------------------------
  // Hooks

  /** What a hook does: throws for want of its provider, or returns. */
  datatype Hook<+T> = ThrowsOutsideProvider | Returns(value: T)

  /** The fetch trigger a component receives: bound to the cluster and
      endpoint current when the hook ran. */
  datatype FetchTrigger = FetchTrigger(cluster: Cluster, url: string)

  /** `useFetchTokenLargestAccounts`: needs the dispatch context, then binds
      the current cluster and endpoint. */
  function UseFetchTokenLargestAccounts(hasDispatch: bool, cluster: Cluster, url: string): (r: Hook<FetchTrigger>)
    ensures r.ThrowsOutsideProvider? <==> !hasDispatch
    ensures r.Returns? ==> r.value.cluster == cluster && r.value.url == url
  {
    if !hasDispatch then ThrowsOutsideProvider else Returns(FetchTrigger(cluster, url))
  }

  /** Calling the trigger for `pubkey` runs one fetch on the bound endpoint. */
  function Trigger(trigger: FetchTrigger, pubkey: Address,
                   largest: Outcome<seq<LargestAccount>>, ownerOf: OwnerLookup): (run: FetchRun)
    ensures forall k :: 0 <= k < |run.dispatched| ==>
              run.dispatched[k].key == pubkey && run.dispatched[k].url == trigger.url
    ensures |run.dispatched| == 2
    ensures run.dispatched[0].status == Fetching && run.dispatched[1].status != Fetching
    ensures run.dispatched[1].status == Fetched <==> largest.Ok?
    ensures trigger.cluster == Custom ==> run.reports == []
    ensures trigger.cluster != Custom && largest.Failed? ==> |run.reports| == 1
    ensures run == FetchLargestAccounts(pubkey, trigger.cluster, trigger.url, largest, ownerOf)
  {
    FetchLargestAccounts(pubkey, trigger.cluster, trigger.url, largest, ownerOf)
  }

  /** `useTokenLargestTokens`: needs the state context, then reads the entry
      stored under `address`, absent for an address never stored. */
  function UseTokenLargestTokens<Entry>(entries: Option<map<Address, Entry>>, address: Address):
    (r: Hook<Option<Entry>>)
    ensures r.ThrowsOutsideProvider? <==> entries.None?
    ensures r.Returns? ==> (r.value.Some? <==> address in entries.value)
    ensures r.Returns? && r.value.Some? ==> r.value.value == entries.value[address]
  {
    if entries.None? then ThrowsOutsideProvider else Returns(Get(entries.value, address))
  }

  /** Reading an entry has no effect: two reads of the same state agree, and
      an entry stored under another address does not change the answer. */
  lemma ReadsAreIndependent<Entry>(entries: map<Address, Entry>, address: Address, other: Address, e: Entry)
    requires other != address
    ensures UseTokenLargestTokens(Some(entries[other := e]), address) == UseTokenLargestTokens(Some(entries), address)
    ensures UseTokenLargestTokens(Some(entries[address := e]), address) == Returns(Some(e))
  {
  }
}
