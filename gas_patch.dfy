/** The ABI gas patcher of src/helpers.ts (`addGasToAbiMethodsIfNecessary`).

    When the network is configured with a fixed gas amount, every function
    element of an ABI gets an explicit `gas` field, so that ethers does not
    estimate gas on every call; the amount written is the configured gas minus
    a fixed offset that compensates for the padding ethers adds on its own. */
module GasPatch {

  /** A property value of an ABI element. Only what the patcher inspects or
      writes is told apart: strings (such as the `type` tag) and the gas
      quantity it writes. */
  datatype AbiValue =
    | Text(s: string)
    /** `BigNumber.from(n).toHexString()`, represented by the integer it encodes */
    | HexQuantity(n: int)
    /** numbers, booleans, arrays and nested objects, which the patcher only copies */
    | Other(id: nat)

  /** One ABI element: a JavaScript object, as the map from its own property
      names to their values. */
  datatype AbiEntry = AbiEntry(fields: map<string, AbiValue>)

  type Abi = seq<AbiEntry>

  /** The `gas` setting of a network configuration: the string "auto", not set
      at all, or a fixed number. */
  datatype GasSetting = Auto | Unset | Fixed(amount: int)

  /** The part of `hre.network.config` the patcher reads. */
  datatype NetworkConfig = NetworkConfig(gas: GasSetting)

  /** Subtracted from a fixed gas setting before it is written into the ABI. */
  const GasOffset: int := 1000000

  const TypeKey: string := "type"
  const GasKey: string := "gas"

  /** `abiElement.type === "function"` */
  predicate IsFunction(e: AbiEntry) {
    TypeKey in e.fields && e.fields[TypeKey] == Text("function")
  }

  /** `{ ...abiElement, gas: gasLimit }`: a copy with `gas` set, overwriting any
      `gas` the element had. */
  function WithGas(e: AbiEntry, gasLimit: int): AbiEntry {
    AbiEntry(e.fields[GasKey := HexQuantity(gasLimit)])
  }

  /** What one loop iteration appends for one element. */
  function PatchEntry(e: AbiEntry, gasLimit: int): AbiEntry {
    if IsFunction(e) then WithGas(e, gasLimit) else e
  }

  /** The patched list for a fixed gas limit, element by element, last element
      last (the order in which the loop pushes them). */
  function PatchEntries(abi: Abi, gasLimit: int): (r: Abi)
    ensures |r| == |abi|
  {
    if abi == [] then []
    else PatchEntries(abi[..|abi| - 1], gasLimit) + [PatchEntry(abi[|abi| - 1], gasLimit)]
  }

  /** The ABI the patcher returns for a network configuration. */
  function PatchAbi(config: NetworkConfig, abi: Abi): Abi {
    if config.gas.Fixed? then PatchEntries(abi, config.gas.amount - GasOffset) else abi
  }

  /** The patcher as the source runs it: an early return for automatic gas,
      otherwise a loop that pushes each element, or a copy of it with `gas`
      added, onto a fresh list. */
  method AddGasToAbiMethodsIfNecessary(networkConfig: NetworkConfig, abi: Abi) returns (r: Abi)
    ensures r == PatchAbi(networkConfig, abi)
  {
    if networkConfig.gas == Auto || networkConfig.gas == Unset {
      return abi;
    }

    var gasLimit := networkConfig.gas.amount - GasOffset;
    var modifiedAbi: Abi := [];
    for i := 0 to |abi|
      invariant modifiedAbi == PatchEntries(abi[..i], gasLimit)
    {
      var abiElement := abi[i];
      assert abi[..i + 1][..i] == abi[..i];
      if !IsFunction(abiElement) {
        modifiedAbi := modifiedAbi + [abiElement];
        continue;
      }
      modifiedAbi := modifiedAbi + [WithGas(abiElement, gasLimit)];
    }
    assert abi[..|abi|] == abi;
    return modifiedAbi;
  }

  /** With automatic or unset gas the ABI is returned as it is. */
  lemma AutoGasLeavesAbiUnchanged(config: NetworkConfig, abi: Abi)
    requires config.gas == Auto || config.gas == Unset
    ensures PatchAbi(config, abi) == abi
  {
  }

  /** Element i of the patched list is element i of the input, patched. */
  lemma {:induction false} PatchEntriesAt(abi: Abi, gasLimit: int, i: int)
    requires 0 <= i < |abi|
    ensures PatchEntries(abi, gasLimit)[i] == PatchEntry(abi[i], gasLimit)
  {
    if i < |abi| - 1 {
      PatchEntriesAt(abi[..|abi| - 1], gasLimit, i);
    }
  }

  /** With a fixed gas G the patched ABI has the input's length and order;
      every element that is not a function is unchanged at its index; every
      function element is the input element with `gas` set to G - 1000000
      (whatever `gas` it had before) and every other property unchanged. */
  lemma FixedGasPatch(config: NetworkConfig, abi: Abi)
    requires config.gas.Fixed?
    ensures var r := PatchAbi(config, abi);
      && |r| == |abi|
      && (forall i :: 0 <= i < |abi| && !IsFunction(abi[i]) ==> r[i] == abi[i])
      && (forall i :: 0 <= i < |abi| && IsFunction(abi[i]) ==>
            && IsFunction(r[i])
            && GasKey in r[i].fields
            && r[i].fields[GasKey] == HexQuantity(config.gas.amount - 1000000)
            && r[i].fields.Keys == abi[i].fields.Keys + {GasKey}
            && (forall k :: k in abi[i].fields && k != GasKey ==> r[i].fields[k] == abi[i].fields[k]))
  {
    var g := config.gas.amount - GasOffset;
    forall i | 0 <= i < |abi|
      ensures PatchAbi(config, abi)[i] == PatchEntry(abi[i], g)
    {
      PatchEntriesAt(abi, g, i);
    }
  }

  /** Patching twice with the same limit is patching once. */
  lemma {:induction false} PatchEntriesIdempotent(abi: Abi, gasLimit: int)
    ensures PatchEntries(PatchEntries(abi, gasLimit), gasLimit) == PatchEntries(abi, gasLimit)
  {
    if abi != [] {
      var init, last := abi[..|abi| - 1], abi[|abi| - 1];
      var once := PatchEntries(abi, gasLimit);
      assert once[..|once| - 1] == PatchEntries(init, gasLimit);
      assert once[|once| - 1] == PatchEntry(last, gasLimit);
      PatchEntriesIdempotent(init, gasLimit);
      if IsFunction(last) {
        var patched := WithGas(last, gasLimit);
        assert IsFunction(patched);
        assert patched.fields[GasKey := HexQuantity(gasLimit)] == patched.fields;
      }
      assert PatchEntry(PatchEntry(last, gasLimit), gasLimit) == PatchEntry(last, gasLimit);
    }
  }

  /** Patching an already patched ABI under the same configuration gives the
      same ABI, so patching it a second time is harmless. */
  lemma PatchAbiIdempotent(config: NetworkConfig, abi: Abi)
    ensures PatchAbi(config, PatchAbi(config, abi)) == PatchAbi(config, abi)
  {
    if config.gas.Fixed? {
      PatchEntriesIdempotent(abi, config.gas.amount - GasOffset);
    }
  }
}
