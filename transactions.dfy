/** Instructions and transactions, as far as the front end handles them: the SDK's
    instruction constructors become constructors of `Instr`, and a built transaction keeps
    its instructions, lookup tables and blockhash. */
module Transactions {
  import opened Wrappers
  import opened CandyTypes

  datatype Instr =
    | SetComputeUnitLimit(units: int)
    | SetComputeUnitPrice(microLamports: int)
    | MintV1(candyMachine: PublicKey, collection: PublicKey, asset: PublicKey,
             group: Option<string>, candyGuard: PublicKey, mintArgs: Option<MintArgs>)
    | Route(guard: string, candyMachine: PublicKey, candyGuard: PublicKey,
            group: Option<string>, merkleRoot: PublicKey, merkleProof: seq<PublicKey>)

  datatype LookupTable = LookupTable(publicKey: PublicKey, addresses: seq<PublicKey>)

  datatype Transaction = Transaction(instructions: seq<Instr>, lookupTables: seq<LookupTable>, blockhash: string)

  /** A built transaction together with the signers it needs. */
  datatype BuiltTx = BuiltTx(transaction: Transaction, signers: seq<PublicKey>)

  /** The `group` argument of mint and route instructions: unscoped for the default
      group, the label itself otherwise. */
  function GroupOf(groupLabel: string): (r: Option<string>)
    ensures r.None? <==> groupLabel == "default"
    ensures r.Some? ==> r.value == groupLabel
  {
    if groupLabel == "default" then None else Some(groupLabel)
  }
}
