/** Human-readable labels for addresses and programs, and the conversion of a
    partially decoded instruction back into a transaction instruction. The
    label tables are not fixed by this model: they are parameters. */
module Tx {
  import opened Common

  /** An entry of the known-programs table: a display name and the clusters
      the program is deployed on. */
  datatype ProgramInfo = ProgramInfo(name: string, deployments: seq<Cluster>)

  /** An entry of the token registry. */
  datatype TokenInfo = TokenInfo(name: string, symbol: string)

  /** The static label tables consulted by `AddressLabel`. */
  datatype LabelTables = LabelTables(
    programs: map<Address, ProgramInfo>,
    loaders: map<Address, string>,
    sysvars: map<Address, string>,
    specials: map<Address, string>,
    serumMarkets: map<(Address, Cluster), string>)

  /** JavaScript truthiness of a `string | undefined`: present and non-empty. */
  predicate Truthy(text: Option<string>)
  {
    text.Some? && text.value != ""
  }

  /** JavaScript `a || b` on labels. */
  function Or(a: Option<string>, b: Option<string>): Option<string>
  {
    if Truthy(a) then a else b
  }

  /** The label chain `labels[0] || labels[1] || ...`, as an independent
      reference for the priority order of `AddressLabel`. */
  function FirstLabel(labels: seq<Option<string>>): Option<string>
    requires |labels| > 0
    decreases |labels|
  {
    if |labels| == 1 then labels[0] else Or(labels[0], FirstLabel(labels[1..]))
  }

  // ---------------------------------------------------------------------
  // Program names

  predicate DeployedOn(t: LabelTables, address: Address, cluster: Cluster)
  {
    address in t.programs && cluster in t.programs[address].deployments
  }

  /** The program table's name when the program is deployed on `cluster`,
      otherwise whatever the loader table says, which may be absent. */
  function ProgramLabel(t: LabelTables, address: Address, cluster: Cluster): (r: Option<string>)
    ensures r.Some? <==> DeployedOn(t, address, cluster) || address in t.loaders
    ensures DeployedOn(t, address, cluster) ==> r.value == t.programs[address].name
    ensures !DeployedOn(t, address, cluster) && r.Some? ==> r.value == t.loaders[address]
  {
    if DeployedOn(t, address, cluster) then Some(t.programs[address].name)
    else Get(t.loaders, address)
  }

  /** A program entry that is not deployed on the current cluster is never
      used: the label then comes from the loader table alone. */
  lemma ProgramLabelIgnoresUndeployed(t: LabelTables, address: Address, cluster: Cluster)
    requires address in t.programs && cluster !in t.programs[address].deployments
    ensures ProgramLabel(t, address, cluster) == Get(t.loaders, address)
    ensures address !in t.loaders ==> ProgramLabel(t, address, cluster).None?
  {
  }

  /** The fallback name of a program nobody has labelled. */
  function UnknownProgram(address: Address): string
  {
    "Unknown Program (" + address + ")"
  }

  /** The fallback name gives the address back: distinct addresses never
      share a fallback name. */
  lemma {:induction false} UnknownProgramInjective(a: Address, b: Address)
    requires UnknownProgram(a) == UnknownProgram(b)
    ensures a == b
  {
    var p := "Unknown Program (";
    assert |a| == |b|;
    forall i | 0 <= i < |a|
      ensures a[i] == b[i]
    {
      assert UnknownProgram(a)[|p| + i] == a[i];
      assert UnknownProgram(b)[|p| + i] == b[i];
    }
  }

  /** The display name of a program: its label when that is non-empty,
      otherwise the unknown-program fallback. Never empty. */
  function GetProgramName(t: LabelTables, address: Address, cluster: Cluster): (r: string)
    ensures r != ""
    ensures Truthy(ProgramLabel(t, address, cluster)) ==> r == ProgramLabel(t, address, cluster).value
    ensures !Truthy(ProgramLabel(t, address, cluster)) ==> r == UnknownProgram(address)
  {
    var text := ProgramLabel(t, address, cluster);
    if Truthy(text) then text.value else UnknownProgram(address)
  }

  // ---------------------------------------------------------------------
  // Token labels

  /** The token registry's label for `address`: the name alone when it equals
      the symbol, otherwise "symbol - name". Absent without a registry or
      without an entry. */
  function TokenLabel(address: Address, registry: Option<map<Address, TokenInfo>>): (r: Option<string>)
    ensures r.None? <==> registry.None? || address !in registry.value
    ensures r.Some? && registry.value[address].name == registry.value[address].symbol ==>
                  r.value == registry.value[address].name
    ensures r.Some? && registry.value[address].name != registry.value[address].symbol ==>
                  r.value == registry.value[address].symbol + " - " + registry.value[address].name
  {
    if registry.None? then None
    else if address !in registry.value then None
    else
      var info := registry.value[address];
      if info.name == info.symbol then Some(info.name)
      else Some(info.symbol + " - " + info.name)
  }

  /** A token label always ends with the token's name, and starts with its
      symbol. */
  lemma TokenLabelShowsNameAndSymbol(address: Address, registry: Option<map<Address, TokenInfo>>)
    requires TokenLabel(address, registry).Some?
    ensures var info := registry.value[address];
            var text := TokenLabel(address, registry).value;
            && |info.name| <= |text| && text[|text| - |info.name|..] == info.name
            && |info.symbol| <= |text| && text[..|info.symbol|] == info.symbol
  {
  }

  // ---------------------------------------------------------------------
  // Address labels

  /** The label sources in the order `AddressLabel` consults them. */
  function LabelSources(t: LabelTables, address: Address, cluster: Cluster,
                        registry: Option<map<Address, TokenInfo>>): seq<Option<string>>
  {
    [ ProgramLabel(t, address, cluster),
      Get(t.sysvars, address),
      Get(t.specials, address),
      TokenLabel(address, registry),
      Get(t.serumMarkets, (address, cluster)) ]
  }

  /** The label of any address: the program, sysvar, special, token and Serum
      market sources combined with JavaScript `||`. */
  function AddressLabel(t: LabelTables, address: Address, cluster: Cluster,
                        registry: Option<map<Address, TokenInfo>>): (r: Option<string>)
  {
    Or(Or(Or(Or(ProgramLabel(t, address, cluster),
                Get(t.sysvars, address)),
             Get(t.specials, address)),
          TokenLabel(address, registry)),
       Get(t.serumMarkets, (address, cluster)))
  }

  /** `AddressLabel` is the label chain over `LabelSources`. */
  lemma AddressLabelIsChain(t: LabelTables, address: Address, cluster: Cluster,
                            registry: Option<map<Address, TokenInfo>>)
    ensures AddressLabel(t, address, cluster, registry) == FirstLabel(LabelSources(t, address, cluster, registry))
  {
    var sources := LabelSources(t, address, cluster, registry);
    assert FirstLabel(sources[4..]) == sources[4];
    assert FirstLabel(sources[3..]) == Or(sources[3], sources[4]);
    assert FirstLabel(sources[2..]) == Or(sources[2], Or(sources[3], sources[4]));
    assert FirstLabel(sources[1..]) == Or(sources[1], Or(sources[2], Or(sources[3], sources[4])));
  }

  /** The label chain yields the first non-empty label. */
  lemma {:induction false} FirstLabelPicksFirstTruthy(labels: seq<Option<string>>, i: nat)
    requires i < |labels| && Truthy(labels[i])
    requires forall j :: 0 <= j < i ==> !Truthy(labels[j])
    ensures FirstLabel(labels) == labels[i]
    decreases i
  {
    if i > 0 {
      FirstLabelPicksFirstTruthy(labels[1..], i - 1);
    }
  }

  /** When no label is non-empty the chain yields the last one, which may be
      absent or empty. */
  lemma {:induction false} FirstLabelFallsThrough(labels: seq<Option<string>>)
    requires |labels| > 0
    requires forall j :: 0 <= j < |labels| ==> !Truthy(labels[j])
    ensures FirstLabel(labels) == labels[|labels| - 1]
    decreases |labels|
  {
    if |labels| > 1 {
      FirstLabelFallsThrough(labels[1..]);
    }
  }

  /** A non-empty result of the chain is one of its labels, and every label
      before it was absent or empty. */
  lemma {:induction false} FirstLabelWitness(labels: seq<Option<string>>)
    requires |labels| > 0 && Truthy(FirstLabel(labels))
    ensures exists i :: 0 <= i < |labels| && FirstLabel(labels) == labels[i]
              && forall j :: 0 <= j < i ==> !Truthy(labels[j])
    decreases |labels|
  {
    if Truthy(labels[0]) {
      assert FirstLabel(labels) == labels[0];
    } else {
      FirstLabelWitness(labels[1..]);
      var i :| 0 <= i < |labels[1..]| && FirstLabel(labels[1..]) == labels[1..][i]
                && forall j :: 0 <= j < i ==> !Truthy(labels[1..][j]);
      assert FirstLabel(labels) == labels[i + 1];
      forall j | 0 <= j < i + 1
        ensures !Truthy(labels[j])
      {
        if j > 0 {
          assert labels[j] == labels[1..][j - 1];
        }
      }
    }
  }

  /** Priority order of address labels: the first source (program, sysvar,
      special, token, Serum) with a non-empty label wins, later sources are
      consulted only when all earlier ones are absent or empty, and when all
      are, the Serum lookup is returned as it is. */
  lemma AddressLabelPriority(t: LabelTables, address: Address, cluster: Cluster,
                             registry: Option<map<Address, TokenInfo>>, i: nat)
    requires i < 5
    ensures var sources := LabelSources(t, address, cluster, registry);
            Truthy(sources[i]) && (forall j :: 0 <= j < i ==> !Truthy(sources[j])) ==>
                  AddressLabel(t, address, cluster, registry) == sources[i]
    ensures var sources := LabelSources(t, address, cluster, registry);
            (forall j :: 0 <= j < 5 ==> !Truthy(sources[j])) ==>
                  AddressLabel(t, address, cluster, registry) == Get(t.serumMarkets, (address, cluster))
    ensures var sources := LabelSources(t, address, cluster, registry);
            Truthy(AddressLabel(t, address, cluster, registry)) ==>
                  exists k :: 0 <= k < 5 && AddressLabel(t, address, cluster, registry) == sources[k]
                     && forall j :: 0 <= j < k ==> !Truthy(sources[j])
  {
    var sources := LabelSources(t, address, cluster, registry);
    AddressLabelIsChain(t, address, cluster, registry);
    if Truthy(sources[i]) && (forall j :: 0 <= j < i ==> !Truthy(sources[j])) {
      FirstLabelPicksFirstTruthy(sources, i);
    }
    if forall j :: 0 <= j < 5 ==> !Truthy(sources[j]) {
      FirstLabelFallsThrough(sources);
    }
    if Truthy(AddressLabel(t, address, cluster, registry)) {
      FirstLabelWitness(sources);
    }
  }

  /** What the explorer shows for an address: its label when that is
      non-empty, otherwise the address itself. */
  function DisplayAddress(t: LabelTables, address: Address, cluster: Cluster,
                          registry: map<Address, TokenInfo>): (r: string)
    ensures Truthy(AddressLabel(t, address, cluster, Some(registry))) ==>
                  r == AddressLabel(t, address, cluster, Some(registry)).value
    ensures !Truthy(AddressLabel(t, address, cluster, Some(registry))) ==> r == address
    ensures address != "" ==> r != ""
  {
    var text := AddressLabel(t, address, cluster, Some(registry));
    if Truthy(text) then text.value else address
  }

  // ---------------------------------------------------------------------
  // Instruction conversion

  /** An account of a parsed transaction's message. */
  datatype MessageAccount = MessageAccount(pubkey: Address, signer: bool, writable: bool)

  /** An instruction of a parsed transaction: either parsed by a known
      program's parser, or left as raw accounts and base-58 data. */
  datatype Instruction =
    | Parsed(programId: Address, program: string)
    | PartiallyDecoded(programId: Address, accounts: seq<Address>, data: string)

  /** An account reference of an executable instruction. */
  datatype AccountKey = AccountKey(pubkey: Address, isSigner: bool, isWritable: bool)

  datatype TransactionInstruction =
    TransactionInstruction(keys: seq<AccountKey>, programId: Address, data: seq<bv8>)

  /** The three ways the conversion ends: no instruction (`undefined`), an
      instruction, or an exception from the base-58 decoder. */
  datatype Conversion =
    | NotConvertible
    | Converted(instruction: TransactionInstruction)
    | DecodeThrows

  /** Index of the first message account whose key is `account`. */
  function FindAccount(accounts: seq<MessageAccount>, account: Address, from: nat): (r: Option<nat>)
    requires from <= |accounts|
    ensures r.Some? ==> from <= r.value < |accounts| && accounts[r.value].pubkey == account
                        && forall j :: from <= j < r.value ==> accounts[j].pubkey != account
    ensures r.None? ==> forall j :: from <= j < |accounts| ==> accounts[j].pubkey != account
    decreases |accounts| - from
  {
    if from == |accounts| then None
    else if accounts[from].pubkey == account then Some(from)
    else FindAccount(accounts, account, from + 1)
  }

  /** The message account an instruction account refers to, if any. */
  function FirstMatch(accounts: seq<MessageAccount>, account: Address): Option<MessageAccount>
  {
    var i := FindAccount(accounts, account, 0);
    if i.Some? then Some(accounts[i.value]) else None
  }

  function ToAccountKey(m: MessageAccount): AccountKey
  {
    AccountKey(m.pubkey, m.signer, m.writable)
  }

  /** Rebuilds an executable instruction from a partially decoded one: every
      instruction account takes its signer and writable flags from the first
      message account with its key, and a single unknown account makes the
      whole conversion fail. */
  method IntoTransactionInstruction(messageAccounts: seq<MessageAccount>, instruction: Instruction,
                                    decode: string -> Option<seq<bv8>>)
    returns (r: Conversion)
    ensures instruction.Parsed? ==> r == NotConvertible
    ensures instruction.PartiallyDecoded? ==>
              (r == NotConvertible <==>
                 exists i :: 0 <= i < |instruction.accounts| && FirstMatch(messageAccounts, instruction.accounts[i]).None?)
    ensures r.DecodeThrows? ==> decode(instruction.data).None?
    ensures r.Converted? ==>
              && instruction.PartiallyDecoded?
              && r.instruction.programId == instruction.programId
              && Some(r.instruction.data) == decode(instruction.data)
              && |r.instruction.keys| == |instruction.accounts|
              && (forall i :: 0 <= i < |instruction.accounts| ==> r.instruction.keys[i].pubkey == instruction.accounts[i])
              && forall i :: 0 <= i < |instruction.accounts| ==>
                   && FirstMatch(messageAccounts, instruction.accounts[i]).Some?
                   && r.instruction.keys[i] == ToAccountKey(FirstMatch(messageAccounts, instruction.accounts[i]).value)
    ensures instruction.PartiallyDecoded? && r != NotConvertible ==>
              (r.Converted? <==> decode(instruction.data).Some?)
  {
    if instruction.Parsed? {
      return NotConvertible;
    }
    var keys: seq<AccountKey> := [];
    var i := 0;
    while i < |instruction.accounts|
      invariant 0 <= i <= |instruction.accounts|
      invariant |keys| == i
      invariant forall j :: 0 <= j < i ==>
                  && FirstMatch(messageAccounts, instruction.accounts[j]).Some?
                  && keys[j] == ToAccountKey(FirstMatch(messageAccounts, instruction.accounts[j]).value)
    {
      var found := FirstMatch(messageAccounts, instruction.accounts[i]);
      if found.None? {
        return NotConvertible;
      }
      keys := keys + [ToAccountKey(found.value)];
      i := i + 1;
    }
    var data := decode(instruction.data);
    if data.None? {
      return DecodeThrows;
    }
    return Converted(TransactionInstruction(keys, instruction.programId, data.value));
  }

  /** The message account found for an instruction account carries that
      account's key, and the key is among the message's keys. */
  lemma FirstMatchCarriesKey(messageAccounts: seq<MessageAccount>, account: Address)
    requires FirstMatch(messageAccounts, account).Some?
    ensures ToAccountKey(FirstMatch(messageAccounts, account).value).pubkey == account
    ensures account in (set m | m in messageAccounts :: m.pubkey)
  {
  }
}
