# Explorer data layer: labels, `.sol` domains and largest accounts

A Dafny model of three pieces of a blockchain explorer's client code:

- **Labels** (`tx.dfy`, module `Tx`). The display name of a program. The label of any address,
  taken from the first of five sources with a non-empty label: the program label, then the
  sysvar table, special table, token registry and Serum markets. The program label is itself
  the program table's name for a program deployed on the current cluster, and otherwise the
  loader table's entry; a deployed program with an empty name therefore skips the loader table.
  The display string of an address. The conversion of a partially decoded instruction back into
  an executable transaction instruction. The label tables are parameters (`LabelTables`, a
  record of finite maps). JavaScript's `||` is modelled exactly: an empty label counts as
  missing and falls through to the next source (`Truthy`, `Or`).
- **`.sol` domains** (`name_service.dfy`, module `NameService`). The domain-syntax test and
  the strip-the-suffix step, which form a round trip. The owner lookup with its
  reject / `null` / found outcomes. One run of the effect that lists a wallet's domains: the
  cluster gate, the reverse lookups with `.sol` appended, the sort by name and the loading
  flag. Every name-service call is a parameter saying how it settles (`Outcome`).
- **Largest accounts** (`largest.dfy`, module `Largest`). The fetch routine as a function from
  call outcomes to what it does: the two `Update` actions it dispatches and the error reports
  it makes. Also the two hooks, which throw outside their provider, and the entry lookup.

`common.dfy` (module `Common`) holds `Option`, `Outcome` (an awaited call either fulfils with
a value or rejects), `Cluster` and `Address` (a base-58 string).

## Model

| member | source | states |
|---|---|---|
| Tx.ProgramLabel | app/utils/tx.ts:20-27 | A label exists iff the program is deployed on the cluster or the address is a loader. A deployed program gives its table name. Otherwise the loader table's entry is used. |
| Tx.ProgramLabelIgnoresUndeployed | app/utils/tx.ts:21-26 | A program entry not deployed on the current cluster is ignored. The label is then the loader entry, and absent without one. |
| Tx.GetProgramName | app/utils/tx.ts:14-18 | The result is never empty. It is the program label when that is non-empty, else exactly `Unknown Program (<address>)`. |
| Tx.UnknownProgramInjective | app/utils/tx.ts:17 | Two addresses with the same fallback name are the same address, so the fallback identifies the program. |
| Tx.TokenLabel | app/utils/tx.ts:29-37 | Absent iff there is no registry or the address is not in it. Otherwise the name when name equals symbol, else `symbol - name`. |
| Tx.TokenLabelShowsNameAndSymbol | app/utils/tx.ts:33-36 | Every token label ends with the token's name and starts with its symbol. |
| Tx.AddressLabelIsChain | app/utils/tx.ts:39-47 | The address label equals the `||` chain over the five sources in the order program, sysvar, special, token, Serum. |
| Tx.FirstLabelPicksFirstTruthy | app/utils/tx.ts:40-46 | An `||` chain yields the first label that is present and non-empty. |
| Tx.FirstLabelFallsThrough | app/utils/tx.ts:40-46 | When no label in the chain is non-empty, the chain yields the last one unchanged. It may be absent or empty. |
| Tx.FirstLabelWitness | app/utils/tx.ts:40-46 | A non-empty chain result is one of the labels, and every label before it was absent or empty. |
| Tx.AddressLabelPriority | app/utils/tx.ts:39-47 | The first source with a non-empty label wins. Later sources count only when every earlier one is absent or empty. With no non-empty label the Serum lookup is returned. A non-empty result always comes from such a first source. |
| Tx.DisplayAddress | app/utils/tx.ts:49-51 | The result is the label when that is non-empty, else the address itself. It is never empty for a non-empty address. |
| Tx.FindAccount | app/utils/tx.ts:62 | Finds the first message account with the given key. Absent iff no message account has that key. |
| Tx.IntoTransactionInstruction | app/utils/tx.ts:53-76 | A parsed instruction gives no result. A partially decoded one gives no result iff some account has no message account. Otherwise key i carries instruction account i, in order, with signer and writable copied from the first matching message account. The program id is passed through, the data is the decoder's output, and a decoder failure is an exception. |
| Tx.FirstMatchCarriesKey | app/utils/tx.ts:62-68 | The message account found for an instruction account carries that account's key, and that key is among the message's keys. |
| NameService.DomainName | app/utils/name-service.tsx:36 | `slice(0, -4)`: a prefix of the domain that is four characters shorter. For shorter inputs it is empty. |
| NameService.DomainSyntaxRoundTrip | app/utils/name-service.tsx:23-36 | For a string with domain syntax, the stripped name is non-empty and appending `.sol` to it gives the string back. |
| NameService.NameRoundTrip | app/utils/name-service.tsx:23-36 | Every non-empty name plus `.sol` has domain syntax and strips back to the name. |
| NameService.DomainSyntaxMeansNamePlusSuffix | app/utils/name-service.tsx:23-25 | Domain syntax holds iff the string is a non-empty name followed by `.sol`. `.sol` alone is rejected. |
| NameService.GetDomainInfo | app/utils/name-service.tsx:34-51 | It rejects iff key derivation fails. It is `null` iff the owner lookup fails or finds no owner. Otherwise it returns the derived key as address and the registry owner as owner. |
| NameService.GetDomainInfoUsesName | app/utils/name-service.tsx:27-39 | For `name.sol`, the key is derived from exactly `name`. |
| NameService.ReverseLookupAll | app/utils/name-service.tsx:87-95 | Succeeds iff every reverse lookup succeeds. Then it returns one entry per address, in order, named lookup result + `.sol` and keeping its address. |
| NameService.InsertByName | app/utils/name-service.tsx:96 | Insertion adds exactly the one element. The new head is the inserted element or the old head. |
| NameService.SortByName | app/utils/name-service.tsx:96 | Sorting is a permutation of its input. |
| NameService.InsertByNameSorted | app/utils/name-service.tsx:96 | Insertion keeps a list sorted under a comparator whose sign flips with its arguments. |
| NameService.SortByNameSorted | app/utils/name-service.tsx:96 | The sorted list is ordered by name under any such comparator. |
| NameService.ContentsOfSorted | app/utils/name-service.tsx:87-97 | The sorted list has one entry per discovered address. Its entries are exactly the named addresses. |
| NameService.ResolveUserDomains | app/utils/name-service.tsx:79-103 | Off mainnet and custom endpoints it queries nothing and changes nothing. If creating the connection throws, it rejects before any state change or loading update. Otherwise loading goes true then false, and the state it leaves is not loading. The list changes only on full success. Full success always stores the list with one entry per address: the same multiset as the in-order reverse lookups, each named lookup result + `.sol` and keeping its address. Any failed step keeps the previous list. |
| NameService.ResolvedDomainsSorted | app/utils/name-service.tsx:96-97 | After every successful run, the stored list is ordered by name whenever the comparator's sign flips with its arguments. |
| Largest.WithOwner | app/providers/mints/largest.tsx:60-80 | An entry copies address and amount. A successful lookup sets the owner to the lookup's possibly absent value. A failed one leaves the owner out. |
| Largest.WithOwners | app/providers/mints/largest.tsx:59-81 | One entry per account, in order. Each lookup is contained in its own entry. Reports equal the number of failed lookups off custom endpoints, and there are none on custom ones. Every report carries the url. |
| Largest.FetchLargestAccounts | app/providers/mints/largest.tsx:44-101 | Exactly two updates for the same key and url. The first is `Fetching` with no data. The second is terminal: `Fetched` with data iff the first call succeeds, else `FetchFailed` with no data. The data copies every account in order. Reports carry the url. There are none on custom endpoints. Otherwise there is exactly one for a failed first call, else one per failed lookup. |
| Largest.OwnerLookupsAreContained | app/providers/mints/largest.tsx:59-87 | How the owner lookups settle never changes the final status. Across any two such outcomes the entries agree except for their owners. |
| Largest.AllLookupsFailing | app/providers/mints/largest.tsx:71-74 | When every lookup fails, the failure count, and so the number of reports, equals the number of accounts. |
| Largest.PartialEnrichmentScenario | app/providers/mints/largest.tsx:44-101 | Two accounts where the second lookup fails: the fetch ends `Fetched` with both entries, the second without an owner, and makes one report. |
| Largest.UseFetchTokenLargestAccounts | app/providers/mints/largest.tsx:103-116 | Throws iff there is no dispatch context. Otherwise the trigger is bound to the current cluster and url. |
| Largest.Trigger | app/providers/mints/largest.tsx:110-115 | Calling the trigger always runs one fetch for the requested key on the bound cluster and url: two updates for that key and url, `Fetching` then a terminal status, `Fetched` iff the first call succeeds. No reports on a custom endpoint, and exactly one when the first call fails on any other. |
| Largest.UseTokenLargestTokens | app/providers/mints/largest.tsx:118-126 | Throws iff there is no state context. Otherwise it returns the entry stored under the address, absent for an address never stored. |
| Largest.ReadsAreIndependent | app/providers/mints/largest.tsx:125 | Storing under another address does not change a read. A read after storing under the address returns what was stored. |

## Left out

- The cache reducer (`@providers/cache`) is not part of this model. Only the actions this code dispatches are modelled, not how the cache applies them. So there are no claims about entry transitions, stale-endpoint guards or overlapping fetches of one key.
- The `Clear` dispatch on an endpoint change (app/providers/mints/largest.tsx:33-35): its effect is inside the reducer.
- `app/utils/coingecko.tsx`: timer-driven price polling over floating-point market data.
- All RPC and SDK calls are parameters that say how each call settles. These are `getTokenLargestAccounts`, `getAccountInfo`, `getHashedName`/`getNameAccountKey` (one `deriveKey` parameter), `getNameOwner`, `getFilteredProgramAccounts`, `performReverseLookup` and `bs58.decode`. Creating the RPC client for the largest-accounts fetch happens inside its error handler, so a failure there is folded into the first call's failure. The `Connection` constructor of the domain listing runs outside its error handler and is its own `connection` outcome.
- The label tables, the Serum market registry and the token registry are parameters: their contents are not modelled.
- `Promise.all` concurrency is modelled as an in-order sequential map. Given how each call settles, the results match a concurrent run. The owner lookup and the reverse lookup are functions of the address, so two list items with the same address are assumed to settle alike. The source makes one independent call per item, but real answers list distinct accounts.
- `NameService.SortByName`: `localeCompare` is locale-dependent and is an abstract comparator here. The sort is an insertion sort. Only permutation and order under a sign-consistent comparator are proved. Stability and equality with the engine's sort algorithm are not.
- `NameService.ResolveUserDomains`: models one run of the effect. Re-runs on a wallet or endpoint change, and a late run overwriting a newer one, are not modelled. `console.log` is left out.
- `Largest.FetchLargestAccounts`: the reported error objects are not modelled, only the `url` tag.
- `Tx.ProgramLabel`: JavaScript object lookup also finds inherited keys such as `constructor`. The tables are plain maps here, because base-58 addresses never collide with such keys.
- Cluster (`@utils/cluster`) is not part of this model. It is taken to be `MainnetBeta | Testnet | Devnet | Custom`.
- Strings are sequences of characters. JavaScript counts UTF-16 code units, which agrees for the ASCII suffix `.sol`.
- Both hooks' React wiring (`useContext`, `useCallback`, `useState`, `useEffect`) is reduced to whether the context is present and what the hook returns.
