/** `routeBuilder`: the optional route instruction that records the user's allowlist proof
    on chain before minting with an allowList guard. */
module RouteBuilder {
  import opened Wrappers
  import opened CandyTypes
  import opened Transactions
  import MintArgBuilder

  /** The result of `routeBuilder`: `None` when the group has no allowList guard (the source
      returns nothing at all), otherwise the instructions of the builder it returns. The
      merkle helpers and the on-chain proof lookup are parameters: `proofRecorded(candyGuard,
      candyMachine, merkleRoot, user)` says whether a proof account already exists. */
  function BuildRoute(g: GuardGroup, allowLists: map<string, seq<PublicKey>>, cm: CandyMachine, user: PublicKey,
                      merkleRoot: seq<PublicKey> -> PublicKey,
                      merkleProof: (seq<PublicKey>, PublicKey) -> seq<PublicKey>,
                      proofRecorded: (PublicKey, PublicKey, PublicKey, PublicKey) -> bool): (r: Option<seq<Instr>>)
    ensures r.None? <==> g.guards.allowList.None?
    ensures r.Some? ==> |r.value| <= 1
    ensures r.Some? && |r.value| == 1 <==>
              && g.guards.allowList.Some?
              && g.groupLabel in allowLists
              && !proofRecorded(cm.mintAuthority, cm.publicKey, merkleRoot(allowLists[g.groupLabel]), user)
    ensures r.Some? && |r.value| == 1 ==>
              var list := allowLists[g.groupLabel];
              r.value[0] == Route("allowList", cm.publicKey, cm.mintAuthority, GroupOf(g.groupLabel),
                                  merkleRoot(list), merkleProof(list, user))
  {
    if g.guards.allowList.None? then None
    else if g.groupLabel !in allowLists then Some([])
    else
      var list := allowLists[g.groupLabel];
      var root := merkleRoot(list);
      if proofRecorded(cm.mintAuthority, cm.publicKey, root, user) then Some([])
      else Some([Route("allowList", cm.publicKey, cm.mintAuthority, GroupOf(g.groupLabel), root, merkleProof(list, user))])
  }

  /** The route instruction and the allowList mint argument of the same group carry the same
      merkle root, so the proof recorded by the route is the one the mint checks against. */
  lemma RouteMatchesMintArg(g: GuardGroup, allowLists: map<string, seq<PublicKey>>, cm: CandyMachine, user: PublicKey,
                            merkleRoot: seq<PublicKey> -> PublicKey,
                            merkleProof: (seq<PublicKey>, PublicKey) -> seq<PublicKey>,
                            proofRecorded: (PublicKey, PublicKey, PublicKey, PublicKey) -> bool)
    requires BuildRoute(g, allowLists, cm, user, merkleRoot, merkleProof, proofRecorded).Some?
    requires |BuildRoute(g, allowLists, cm, user, merkleRoot, merkleProof, proofRecorded).value| == 1
    ensures MintArgBuilder.AllowListArg(g, allowLists, merkleRoot).Some?
    ensures BuildRoute(g, allowLists, cm, user, merkleRoot, merkleProof, proofRecorded).value[0].merkleRoot
            == MintArgBuilder.AllowListArg(g, allowLists, merkleRoot).value.merkleRoot
  {
  }
}
