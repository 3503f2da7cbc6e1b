/** The resolution and dispatch helpers of src/helpers.ts: which signer, which
    artifact source and which ABI flow into the factory or contract a call
    returns, and when a call returns null or fails. Each helper is a total
    function over a snapshot of the runtime environment. */
module Helpers {
  import opened GasPatch
  import opened Runtime

  /** Thrown by `getContractOrNull` when the runtime has no deployment registry. */
  const NoDeploymentPluginMessage: string := NoDeploymentPluginPrefix + "\"buidler-deploy\")"

  const NoDeploymentPluginPrefix: string := "No Deployment Plugin Installed, try usePlugin("

  const NoContractPrefix: string := "No Contract deployed with name "

  /** Thrown by `getContract` when no deployment of that name exists. */
  function NoContractMessage(contractName: string): (m: string)
    ensures |m| == |NoContractPrefix| + |contractName|
    ensures m[..|NoContractPrefix|] == NoContractPrefix
    ensures m[|NoContractPrefix|..] == contractName
  {
    NoContractPrefix + contractName
  }

  /** The provider's signer for each of the given accounts, in order. */
  function SignersOf(accounts: seq<string>): (r: seq<Signer>)
    ensures |r| == |accounts|
    ensures forall i :: 0 <= i < |accounts| ==> r[i] == ProviderSigner(accounts[i])
  {
    if accounts == [] then []
    else SignersOf(accounts[..|accounts| - 1]) + [ProviderSigner(accounts[|accounts| - 1])]
  }

  /** `getSigners`: one signer per account the provider lists, in the
      provider's order. */
  function GetSigners(h: Host): (r: seq<Signer>)
    ensures |r| == |h.accounts|
    ensures forall i :: 0 <= i < |r| ==> r[i].ProviderSigner? && r[i].address == h.accounts[i]
  {
    SignersOf(h.accounts)
  }

  /** `_getSigner`: a string becomes the provider's signer for that address,
      whatever accounts the provider lists; any other value passes through. */
  function ToSigner(signer: Arg): (r: Option<Signer>)
    ensures signer.Str? ==> r.Some? && r.value.ProviderSigner? && r.value.address == signer.s
    ensures signer.SignerValue? ==> r == Some(signer.signer)
    ensures signer.Undefined? ==> r.None?
  {
    match signer
    case Str(address) => Some(ProviderSigner(address))
    case SignerValue(s) => Some(s)
    case Undefined => None
  }

  /** `getSigner(address)`, the namespace's accessor for one account. */
  function GetSigner(address: string): (r: Signer)
    ensures ToSigner(Str(address)) == Some(r)
  {
    ProviderSigner(address)
  }

  /** The signer defaulting every builder does before it constructs anything:
      no signer means the first of `getSigners()` (`undefined` when the
      provider lists no account), an address means the provider's signer for
      it, and a signer object is used as it is. */
  function ResolveSigner(h: Host, signer: Arg): (r: Option<Signer>)
    ensures signer.Undefined? ==> (r.Some? <==> |h.accounts| > 0)
    ensures signer.Undefined? && |h.accounts| > 0 ==> r == Some(GetSigners(h)[0])
    ensures signer.Undefined? && |h.accounts| > 0 ==> r == Some(ProviderSigner(h.accounts[0]))
    ensures signer.Str? ==> r == Some(GetSigner(signer.s))
    ensures signer.SignerValue? ==> r == Some(signer.signer)
  {
    if signer.Undefined? then
      var signers := GetSigners(h);
      if |signers| > 0 then Some(signers[0]) else None
    else
      ToSigner(signer)
  }

  /** `_getArtifact`: the registry's artifacts when a registry is installed,
      the file-based store otherwise; a name the chosen source does not hold
      fails. */
  function GetArtifact(h: Host, name: string): (r: Result<Artifact>)
    ensures r.Err? ==> r.error == ArtifactNotFound(name)
    ensures h.deployments.Some? ==>
      (r.Ok? <==> name in h.deployments.value.artifacts) &&
      (r.Ok? ==> r.value == h.deployments.value.artifacts[name])
    ensures h.deployments.None? ==>
      (r.Ok? <==> name in h.artifactStore) &&
      (r.Ok? ==> r.value == h.artifactStore[name])
  {
    var store := if h.deployments.Some? then h.deployments.value.artifacts else h.artifactStore;
    if name in store then Ok(store[name]) else Err(ArtifactNotFound(name))
  }

  /** `getContractFactoryByName`: the named artifact's ABI, patched for the
      network's gas, with its bytecode and the resolved signer. */
  function GetContractFactoryByName(h: Host, name: string, signer: Arg): (r: Result<Factory>)
    ensures r.Ok? <==> GetArtifact(h, name).Ok?
    ensures r.Err? ==> r.error == ArtifactNotFound(name)
    ensures r.Ok? ==>
      var artifact := GetArtifact(h, name).value;
      && r.value.abi == PatchAbi(h.config, artifact.abi)
      && r.value.bytecode == Str(artifact.bytecode)
      && r.value.signer == ResolveSigner(h, signer)
  {
    var resolved := ResolveSigner(h, signer);
    match GetArtifact(h, name)
    case Err(e) => Err(e)
    case Ok(artifact) =>
      var abiWithAddedGas := PatchAbi(h.config, artifact.abi);
      Ok(ContractFactory(abiWithAddedGas, Str(artifact.bytecode), resolved))
  }

  /** `getContractFactoryByAbiAndBytecode`: the given ABI, patched, with the
      given bytecode and the resolved signer; it never fails. */
  function GetContractFactoryByAbiAndBytecode(h: Host, abi: Abi, bytecode: Arg, signer: Arg): (r: Factory)
    ensures r.abi == PatchAbi(h.config, abi)
    ensures r.bytecode == bytecode
    ensures r.signer == ResolveSigner(h, signer)
  {
    var resolved := ResolveSigner(h, signer);
    var abiWithAddedGas := PatchAbi(h.config, abi);
    ContractFactory(abiWithAddedGas, bytecode, resolved)
  }

  /** `getContractFactory`, overloaded on its first argument: a name goes by
      name, its second argument being the signer (the third is then ignored);
      an ABI goes by ABI and bytecode, its second argument being the bytecode. */
  function GetContractFactory(h: Host, nameOrAbi: NameOrAbi, bytecodeOrSigner: Arg, signer: Arg): (r: Result<Factory>)
    ensures nameOrAbi.Name? ==> r == GetContractFactoryByName(h, nameOrAbi.name, bytecodeOrSigner)
    ensures nameOrAbi.AbiList? ==> r == Ok(GetContractFactoryByAbiAndBytecode(h, nameOrAbi.abi, bytecodeOrSigner, signer))
  {
    match nameOrAbi
    case Name(name) => GetContractFactoryByName(h, name, bytecodeOrSigner)
    case AbiList(abi) => Ok(GetContractFactoryByAbiAndBytecode(h, abi, bytecodeOrSigner, signer))
  }

  /** `getContractAt`: by name, the by-name factory attached at `address`;
      by ABI, a contract at `address` over the patched ABI and the resolved
      signer. */
  function GetContractAt(h: Host, nameOrAbi: NameOrAbi, address: string, signer: Arg): (r: Result<Contract>)
    ensures nameOrAbi.Name? ==>
      match GetContractFactoryByName(h, nameOrAbi.name, signer)
      case Ok(factory) => r == Ok(Attached(factory, address))
      case Err(e) => r == Err(e)
    ensures nameOrAbi.AbiList? ==>
      r == Ok(Instance(address, PatchAbi(h.config, nameOrAbi.abi), ResolveSigner(h, signer)))
  {
    match nameOrAbi
    case Name(name) =>
      (match GetContractFactoryByName(h, name, signer)
       case Err(e) => Err(e)
       case Ok(factory) => Ok(Attached(factory, address)))
    case AbiList(abi) =>
      var resolved := ResolveSigner(h, signer);
      var abiWithAddedGas := PatchAbi(h.config, abi);
      Ok(Instance(address, abiWithAddedGas, resolved))
  }

  /** The ABI of a deployment record under either shape, `abi` first, then
      `contractInfo.abi`. */
  function DeploymentAbi(d: Deployment): (r: Option<Abi>)
    ensures d.abi.Some? ==> r == d.abi
    ensures d.abi.None? && d.contractInfo.Some? ==> r == d.contractInfo.value.abi
    ensures r.Some? <==> d.abi.Some? || (d.contractInfo.Some? && d.contractInfo.value.abi.Some?)
  {
    if d.abi.Some? then d.abi
    else if d.contractInfo.Some? then d.contractInfo.value.abi
    else None
  }

  /** The registry accessor `getContractOrNull` calls: `getOrNull` when the
      registry has it, `get` otherwise. */
  function RecordAccessor(d: Deployments): string -> Lookup {
    if d.getOrNull.Some? then d.getOrNull.value else d.get
  }

  /** `getContractOrNull`: fails without a registry; `null` when the
      registry's record is `undefined`; otherwise the contract at the record's
      address over the record's ABI. The ABI is patched here and then again
      inside `getContractAt`. */
  function GetContractOrNull(h: Host, contractName: string, signer: Arg): (r: Result<Option<Contract>>)
    ensures h.deployments.None? ==> r == Err(Thrown(NoDeploymentPluginMessage))
    ensures r == Ok(None) <==>
      h.deployments.Some? && RecordAccessor(h.deployments.value)(contractName).Absent?
    ensures r.Err? && r.error.Thrown? ==> h.deployments.None?
    ensures h.deployments.Some? ==>
      var lookup := RecordAccessor(h.deployments.value)(contractName);
      && (lookup.Threw? ==> r == Err(RegistryError(lookup.message)))
      && (lookup.Null? ==> r == Err(NullRecord(contractName)))
      && (lookup.Found? && DeploymentAbi(lookup.deployment).None? ==> r == Err(AbiMissing(contractName)))
      && (lookup.Found? && DeploymentAbi(lookup.deployment).Some? ==> r.Ok? && r.value.Some?)
    ensures r.Ok? && r.value.Some? ==>
      && h.deployments.Some?
      && RecordAccessor(h.deployments.value)(contractName).Found?
      && var d := RecordAccessor(h.deployments.value)(contractName).deployment;
      && DeploymentAbi(d).Some?
      && r.value.value.Instance?
      && r.value.value.address == d.address
      && r.value.value.signer == ResolveSigner(h, signer)
  {
    match h.deployments
    case None => Err(Thrown(NoDeploymentPluginMessage))
    case Some(deployments) =>
      match RecordAccessor(deployments)(contractName)
      case Threw(message) => Err(RegistryError(message))
      case Absent => Ok(None)
      case Null => Err(NullRecord(contractName))
      case Found(contract) =>
        match DeploymentAbi(contract)
        case None => Err(AbiMissing(contractName))
        case Some(abi) =>
          var abiWithAddedGas := PatchAbi(h.config, abi);
          match GetContractAt(h, AbiList(abiWithAddedGas), contract.address, signer)
          case Ok(c) => Ok(Some(c))
          case Err(e) => Err(e)
  }

  /** `getContract`: `getContractOrNull`, with `null` turned into an error
      naming the contract. */
  function GetContract(h: Host, contractName: string, signer: Arg): (r: Result<Contract>)
    ensures r == Err(Thrown(NoContractMessage(contractName))) <==> GetContractOrNull(h, contractName, signer) == Ok(None)
    ensures forall c :: r == Ok(c) <==> GetContractOrNull(h, contractName, signer) == Ok(Some(c))
    ensures forall e :: GetContractOrNull(h, contractName, signer) == Err(e) ==> r == Err(e)
  {
    NoContractMessageIsNotNoPluginMessage(contractName);
    match GetContractOrNull(h, contractName, signer)
    case Err(e) => Err(e)
    case Ok(None) => Err(Thrown(NoContractMessage(contractName)))
    case Ok(Some(contract)) => Ok(contract)
  }

  /** The two messages the helpers throw can be told apart, whatever the
      contract name. */
  lemma NoContractMessageIsNotNoPluginMessage(contractName: string)
    ensures NoContractMessage(contractName) != NoDeploymentPluginMessage
  {
    assert NoContractMessage(contractName)[3] == 'C';
    assert NoDeploymentPluginMessage[..|NoDeploymentPluginPrefix|] == NoDeploymentPluginPrefix;
    assert NoDeploymentPluginPrefix[3] == 'D';
  }

  /** `getContractOrNull` patches the record's ABI and `getContractAt` patches
      it again; the contract still carries the ABI patched once, at the
      record's address, with the resolved signer. */
  lemma GetContractOrNullPatchesOnce(h: Host, contractName: string, signer: Arg)
    requires h.deployments.Some?
    requires RecordAccessor(h.deployments.value)(contractName).Found?
    requires DeploymentAbi(RecordAccessor(h.deployments.value)(contractName).deployment).Some?
    ensures var d := RecordAccessor(h.deployments.value)(contractName).deployment;
      GetContractOrNull(h, contractName, signer)
        == Ok(Some(Instance(d.address, PatchAbi(h.config, DeploymentAbi(d).value), ResolveSigner(h, signer))))
  {
    var d := RecordAccessor(h.deployments.value)(contractName).deployment;
    PatchAbiIdempotent(h.config, DeploymentAbi(d).value);
  }

  /** Under a fixed gas G, a factory built by name carries the artifact's ABI
      with the same length and order, every function element given `gas`
      G - 1000000 and every other element unchanged, together with the
      artifact's bytecode and the resolved signer (the provider's first
      account when no signer is given). */
  lemma FactoryByNameUnderFixedGas(h: Host, name: string, signer: Arg)
    requires h.config.gas.Fixed?
    requires GetArtifact(h, name).Ok?
    ensures var artifact := GetArtifact(h, name).value;
      var r := GetContractFactory(h, Name(name), signer, Undefined);
      && r.Ok?
      && |r.value.abi| == |artifact.abi|
      && (forall i :: 0 <= i < |artifact.abi| && !IsFunction(artifact.abi[i]) ==> r.value.abi[i] == artifact.abi[i])
      && (forall i :: 0 <= i < |artifact.abi| && IsFunction(artifact.abi[i]) ==>
            r.value.abi[i] == WithGas(artifact.abi[i], h.config.gas.amount - 1000000))
      && r.value.bytecode == Str(artifact.bytecode)
      && (signer.Undefined? && |h.accounts| > 0 ==> r.value.signer == Some(ProviderSigner(h.accounts[0])))
  {
    var artifact := GetArtifact(h, name).value;
    FixedGasPatch(h.config, artifact.abi);
  }

  /** Without a deployment registry both registry lookups fail with the
      message asking for the plugin, whatever the name. */
  lemma NoRegistryFails(h: Host, contractName: string, signer: Arg)
    requires h.deployments.None?
    ensures GetContractOrNull(h, contractName, signer) == Err(Thrown(NoDeploymentPluginMessage))
    ensures GetContract(h, contractName, signer) == Err(Thrown(NoDeploymentPluginMessage))
  {
  }

  /** A name the registry answers `undefined` for gives `null` from
      `getContractOrNull` and an error naming the contract from `getContract`. */
  lemma MissingDeployment(h: Host, contractName: string, signer: Arg)
    requires h.deployments.Some?
    requires RecordAccessor(h.deployments.value)(contractName).Absent?
    ensures GetContractOrNull(h, contractName, signer) == Ok(None)
    ensures GetContract(h, contractName, signer) == Err(Thrown(NoContractMessage(contractName)))
    ensures NoContractMessage(contractName)[|NoContractPrefix|..] == contractName
  {
  }
}
