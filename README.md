# hardhat-deploy-ethers helpers, modelled in Dafny

This project models the logic of `src/helpers.ts` in the plugin that puts an
`ethers` namespace on the Hardhat (formerly Buidler) runtime environment. That
file is the only part of the plugin with logic. The rest of the plugin is host
wiring and type declarations. The logic has two parts:

- **The ABI gas patcher** (`addGasToAbiMethodsIfNecessary`). If the network's
  `gas` is `"auto"` or unset, the ABI is returned as it is. If the network has
  a fixed gas `G`, every element whose `type` is `"function"` is copied with
  `gas` set to `G - 1000000`. Every other element is kept, and order is kept.
  Module `GasPatch` (`gas_patch.dfy`) models it as a method whose loop pushes
  onto a list, as the source does. The method is proved equal to the
  specification function `PatchAbi`. Lemmas give that function's length,
  order, pointwise shape and idempotence.
- **Resolution and dispatch.** This covers signer defaulting, the choice of
  artifact source, the `getContractFactory` and `getContractAt` overloads, and
  the null and error handling of `getContractOrNull` and `getContract`. Module
  `Helpers` (`helpers.dfy`) models each helper as a total function over a
  snapshot of the runtime environment. Module `Runtime` (`runtime.dfy`)
  defines that snapshot: the network configuration, the provider's account
  list, the file-based artifact store and the optional deployment registry.
  The objects ethers builds (`ContractFactory`, `Contract`,
  `factory.attach`) are plain datatype constructors. They record which ABI,
  bytecode, address and signer went into them.

Two behaviours of the code are worth stating outright:

- With no signer and an empty account list, the code reads `signers[0]`,
  gets `undefined` and builds the factory or contract with no signer
  (src/helpers.ts:89-91). `ResolveSigner` returns `None` then.
- A comment in the patcher says the offset is 21000. The code subtracts
  1,000,000, and so does the model (`GasOffset`). There is no guard for
  `G < 1000000`, so the written gas can be negative. The model adds no guard.

## Model

| member | source | states |
|---|---|---|
| `GasPatch.AddGasToAbiMethodsIfNecessary` | src/helpers.ts:207-240 | The loop that pushes each element, or a copy with `gas` added, returns exactly `PatchAbi(networkConfig, abi)`. With `"auto"` or unset gas it returns the input. |
| `GasPatch.PatchEntries` | src/helpers.ts:225-239 | The list built for a fixed gas limit has one element per input element. |
| `GasPatch.AutoGasLeavesAbiUnchanged` | src/helpers.ts:211-213 | With gas `"auto"` or unset, the patched ABI is the input ABI. |
| `GasPatch.PatchEntriesAt` | src/helpers.ts:227-237 | Element i of the output is element i of the input, patched on its own. Order is kept. |
| `GasPatch.FixedGasPatch` | src/helpers.ts:221-237 | With fixed gas G: the output has the same length and order. Non-function elements are unchanged at their index. Each function element keeps every other property and gets `gas` = G - 1000000, replacing any earlier `gas`. |
| `GasPatch.PatchEntriesIdempotent` | src/helpers.ts:227-237 | Patching an already patched list with the same limit changes nothing. |
| `GasPatch.PatchAbiIdempotent` | src/helpers.ts:211-239 | Patching twice under the same network configuration equals patching once. |
| `Helpers.NoContractMessage` | src/helpers.ts:165 | The message thrown for a missing deployment is "No Contract deployed with name " followed by exactly the requested name. |
| `Helpers.SignersOf` | src/helpers.ts:10-12 | One provider signer per account, for that account, in the same order. |
| `Helpers.GetSigners` | src/helpers.ts:8-13 | `getSigners` returns as many signers as the provider lists accounts. Signer i is the provider's signer for account i. |
| `Helpers.ToSigner` | src/helpers.ts:15-23 | A string becomes the provider's signer for that address, independent of the account list. A signer object passes through unchanged. |
| `Helpers.GetSigner` | src/helpers.ts:36-41 | `getSigner(address)` is `_getSigner` applied to the address string. |
| `Helpers.ResolveSigner` | src/helpers.ts:89-94 | The same defaulting appears at lines 112-117 and 143-148. With no signer the result is the first of `getSigners()`, present exactly when the provider lists an account. An address gives the provider's signer for it. A signer object is used as it is. |
| `Helpers.GetArtifact` | src/helpers.ts:25-34 | With a registry, the artifact comes from the registry's artifacts, and the file store is not consulted. Without one it comes from the file store. It fails with "not found" for that name exactly when the chosen source lacks it. |
| `Helpers.GetContractFactoryByName` | src/helpers.ts:83-103 | Succeeds exactly when the artifact resolves. The factory gets the artifact's ABI patched for the network, the artifact's bytecode and the resolved signer. Otherwise the artifact error propagates. |
| `Helpers.GetContractFactoryByAbiAndBytecode` | src/helpers.ts:105-124 | The factory gets the given ABI patched, the given bytecode and the resolved signer. It never fails. |
| `Helpers.GetContractFactory` | src/helpers.ts:58-81 | A name dispatches to the by-name builder, with the second argument as the signer and the third ignored. An ABI dispatches to the ABI-and-bytecode builder, with the second argument as the bytecode. |
| `Helpers.GetContractAt` | src/helpers.ts:126-155 | By name: the by-name factory attached at the address, or that factory's error. By ABI: a contract at the address with the patched ABI and the resolved signer. |
| `Helpers.DeploymentAbi` | src/helpers.ts:183-184 | A record's ABI is `abi` when present, else `contractInfo.abi`. It is absent only when both shapes lack one. |
| `Helpers.GetContractOrNull` | src/helpers.ts:170-200 | Without a registry it throws the "No Deployment Plugin Installed" message, the only error it throws itself. It returns null exactly when the accessor (`getOrNull`, else `get`) yields `undefined`. An accessor that throws passes its message through. A `null` answer gives `NullRecord`, a record with no ABI under either shape gives `AbiMissing`, and a record with an ABI gives a contract, at the record's address with the resolved signer, and only then. |
| `Helpers.GetContract` | src/helpers.ts:157-168 | Throws "No Contract deployed with name <name>" exactly when `getContractOrNull` returns null. Returns the same contract when that call returns one. Passes its errors through. |
| `Helpers.NoContractMessageIsNotNoPluginMessage` | src/helpers.ts:157-199 | The missing-contract message never equals the missing-plugin message, whatever the name. A caller can tell the two failures apart. |
| `Helpers.GetContractOrNullPatchesOnce` | src/helpers.ts:183-195 | The ABI is patched in `getContractOrNull` and again in `getContractAt`. The contract still carries the record's ABI patched once, with the record's address and the resolved signer. |
| `Helpers.FactoryByNameUnderFixedGas` | src/helpers.ts:83-103 | Under fixed gas G, a factory built by name has the artifact's ABI with the same length and order. Function elements get `gas` = G - 1000000 and the others are unchanged. It has the artifact's bytecode, and without a given signer, the first account's signer. |
| `Helpers.NoRegistryFails` | src/helpers.ts:176-199 | Without a registry, `getContractOrNull` and `getContract` both fail with the missing-plugin message, for every name. |
| `Helpers.MissingDeployment` | src/helpers.ts:163-182 | When the registry yields `undefined` for a name, `getContractOrNull` gives null. `getContract` fails with a message that ends in that name. |

## Left out

- `src/index.ts` is not modelled. It holds the `extendEnvironment` hook, the lazily built namespace, `require("ethers")` and the `Web3Provider` construction. These are lifecycle wiring controlled by the host.
- `src/type-extensions.ts` and `src/type-extensions.d.ts` only declare types. They have no runtime behaviour.
- Promises and `await` are not modelled. Each helper is a function over one snapshot of the environment.
- Provider RPC failures are not modelled. The account list is an input, so a failing `listAccounts` call is out of scope.
- The internals of ethers are not modelled: `ContractFactory`, `Contract`, `attach` and the provider's `getSigner`. They are constructors that record their inputs. Errors ethers would raise on malformed input are therefore not modelled.
- The deployment registry and the file store are inputs. The registry is a map of artifacts plus the two record accessors as functions. The file store is a map of artifacts. Their own failures are reduced to "not found" or to an error message the accessor threw.
- `BigNumber.toHexString` is not modelled. The gas written into the ABI is `HexQuantity(G - 1000000)`, which stands for the hex string of that integer.
- Non-integer or non-numeric gas values are not modelled. `BigNumber.from` would reject them; the model's fixed gas is an integer.
- Gas values at or beyond ±(2^53 − 1) are not modelled as failures. `BigNumber.from` throws an overflow fault for such a JavaScript number. The model patches every integer, so `FixedGasPatch`, `AddGasToAbiMethodsIfNecessary` and `FactoryByNameUnderFixedGas` also cover gas values on which the source throws.
- Aliasing is not modelled. With automatic gas the source returns the same array object it was given, which the model cannot distinguish from an equal copy.
- Untyped values outside the declared overloads are not modelled. An ABI element, the ABI itself or `bytecodeOrSigner` may have a shape other than the ones the model distinguishes, such as a byte array as bytecode. Such a value counts only as "not a string" in the code.
- A record without an ABI under either shape makes the source pass `undefined` onward. The patcher loop or ethers then raises a TypeError. The model reports this as `AbiMissing`.
- A registry accessor that answers `null` makes the source read `abi` off `null`, which raises a TypeError. The model reports this as `NullRecord`, not as a null contract.
- The `sendAsync` provider shim does not appear in this source. It is not part of this model.
