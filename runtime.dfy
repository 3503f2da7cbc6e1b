/** The values the helpers of src/helpers.ts read from the runtime environment
    and the values they hand back. The environment is taken as a snapshot: its
    network configuration, the provider's account list, the file-based
    artifact store and the optional deployment registry. The objects ethers
    builds (signers, contract factories, contracts) are plain constructors
    that record which inputs went into them. */
module Runtime {
  import opened GasPatch

  datatype Option<+T> = None | Some(value: T)

  datatype Result<+T> = Ok(value: T) | Err(error: Error)

  /** Failures a helper surfaces to its caller. */
  datatype Error =
    /** an `Error` the helpers throw themselves, with its message */
    | Thrown(message: string)
    /** `deployments.getArtifact` or `artifacts.readArtifact` found no artifact of that name */
    | ArtifactNotFound(name: string)
    /** the registry's record accessor threw */
    | RegistryError(message: string)
    /** the registry's accessor answered `null`, and reading `abi` off it raised a TypeError */
    | NullRecord(contractName: string)
    /** the record carries no ABI under either shape; the patcher's loop or ethers raises a TypeError */
    | AbiMissing(contractName: string)

  /** An ethers `Signer`. */
  datatype Signer =
    /** `provider.getSigner(address)`: the provider's signer for that account */
    | ProviderSigner(address: string)
    /** any other signer object a caller passes in */
    | SignerObject(id: nat)

  /** A JavaScript argument typed `Signer | string | undefined`; in the second
      position of `getContractFactory` it is `Signer | BytesLike | undefined`,
      a bytecode being a hex string. */
  datatype Arg = Undefined | Str(s: string) | SignerValue(signer: Signer)

  /** A compiled contract: its ABI and its deployment bytecode. */
  datatype Artifact = Artifact(abi: Abi, bytecode: string)

  /** The older record shape kept the ABI under `contractInfo`. */
  datatype ContractInfo = ContractInfo(abi: Option<Abi>)

  /** A deployment record of the registry. */
  datatype Deployment = Deployment(abi: Option<Abi>, contractInfo: Option<ContractInfo>, address: string)

  /** What a registry accessor answers for one name; `Absent` is `undefined`. */
  datatype Lookup = Found(deployment: Deployment) | Absent | Null | Threw(message: string)

  /** The deployment registry (`hre.deployments`). */
  datatype Deployments = Deployments(
    /** `deployments.getArtifact` */
    artifacts: map<string, Artifact>,
    /** `deployments.getOrNull`, which older registry versions do not have */
    getOrNull: Option<string -> Lookup>,
    /** `deployments.get` */
    get: string -> Lookup)

  /** The runtime environment as the helpers see it. */
  datatype Host = Host(
    /** `hre.network.config` */
    config: NetworkConfig,
    /** `provider.listAccounts()`, in the provider's order */
    accounts: seq<string>,
    /** `hre.artifacts.readArtifact` */
    artifactStore: map<string, Artifact>,
    /** `(hre as any).deployments`, absent without the registry plugin */
    deployments: Option<Deployments>)

  /** `new ethers.ContractFactory(abi, bytecode, signer)`; a signer of `None`
      is `undefined`. */
  datatype Factory = ContractFactory(abi: Abi, bytecode: Arg, signer: Option<Signer>)

  datatype Contract =
    /** `factory.attach(address)` */
    | Attached(factory: Factory, address: string)
    /** `new ethers.Contract(address, abi, signer)` */
    | Instance(address: string, abi: Abi, signer: Option<Signer>)

  /** The first argument of `getContractFactory` and `getContractAt`: a
      contract name or an ABI list. */
  datatype NameOrAbi = Name(name: string) | AbiList(abi: Abi)
}
