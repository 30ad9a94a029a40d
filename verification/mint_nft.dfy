/** The milestone minting route (app/api/mint-nft/route.ts): a field guard,
    the empty-team default, one asset creation through Nft.MintMilestoneNFT
    and the explorer link. Everything the route calls that can throw is an
    argument: the server key's decoding, the parsing of the recipient's
    address and the asset creation. */
module MintNft {
  import opened Wrappers
  import opened JsText
  import opened Config
  import opened Solana
  import opened Nft

  const MissingFieldsMessage := "Missing required fields"
  const ExplorerBaseUrl := "https://explorer.solana.com/address/"
  const ClusterQuery := "?cluster="

  /** The JSON body; `teamMembers` is optional (absent or null is `None`). */
  datatype Request = Request(
    recipientAddress: Option<string>,
    projectName: Option<string>,
    milestone: Option<string>,
    teamMembers: Option<seq<string>>)

  datatype Body = Minted(nftAddress: Address, explorerUrl: string) | Failed(error: string)

  datatype Response = Response(status: nat, body: Body)

  /** The route's reply and the creation call it made, if it got that far. */
  datatype Outcome = Outcome(response: Response, created: Option<CreateArgs>)

  /** What decoding the server key yields, and the error `new PublicKey`
      throws for the recipient's address, if any. */
  datatype Faults = Faults(decodedKey: Result<Keypair, string>, recipientKey: Option<string>)

  predicate FieldsPresent(req: Request)
  {
    Truthy(req.recipientAddress) && Truthy(req.projectName) && Truthy(req.milestone)
  }

  /** `teamMembers || []`: an array is truthy even when empty, so a sent
      list is kept as it is, and only a missing one becomes the empty team. */
  function TeamOrEmpty(teamMembers: Option<seq<string>>): (team: seq<string>)
    ensures teamMembers.Some? ==> team == teamMembers.value
    ensures teamMembers.None? ==> team == []
  {
    if teamMembers.Some? then teamMembers.value else []
  }

  /** The explorer link; the cluster is the raw environment variable, which
      renders as "undefined" when unset. The link names the asset and the
      cluster, and both can be cut back out of it. */
  function ExplorerUrl(nftAddress: Address, network: Option<string>): (url: string)
    ensures StartsWith(url, ExplorerBaseUrl)
    ensures var start := |ExplorerBaseUrl|;
      && start + |nftAddress| + |ClusterQuery| <= |url|
      && url[start..start + |nftAddress|] == nftAddress
      && url[start + |nftAddress|..start + |nftAddress| + |ClusterQuery|] == ClusterQuery
      && url[start + |nftAddress| + |ClusterQuery|..] == (if network.Some? then network.value else "undefined")
  {
    ExplorerBaseUrl + nftAddress + ClusterQuery + Show(network)
  }

  /** POST /api/mint-nft. */
  function Post(env: Env, req: Request, faults: Faults, create: CreateArgs -> Result<Address, string>): (out: Outcome)
    ensures out.response.status == 200 <==> out.response.body.Minted?
    ensures out.response.status == 200 || out.response.status == 400 || out.response.status == 500
    ensures out.response.status == 400 <==> !FieldsPresent(req)
  {
    if !FieldsPresent(req) then
      Outcome(Response(400, Failed(MissingFieldsMessage)), None)
    else
      var payer := GetServerKeypair(env.solanaPrivateKey, faults.decodedKey);
      if payer.Failure? then
        Outcome(Response(500, Failed(payer.error)), None)
      else if faults.recipientKey.Some? then
        Outcome(Response(500, Failed(faults.recipientKey.value)), None)
      else
        var args := MilestoneArgs(payer.value, req.recipientAddress.value, req.projectName.value,
                                  req.milestone.value, TeamOrEmpty(req.teamMembers));
        var nft := MintMilestoneNFT(payer.value, req.recipientAddress.value, req.projectName.value,
                                    req.milestone.value, TeamOrEmpty(req.teamMembers), create);
        if nft.Failure? then
          Outcome(Response(500, Failed(nft.error)), Some(args))
        else
          Outcome(Response(200, Minted(nft.value, ExplorerUrl(nft.value, env.solanaNetwork))), Some(args))
  }

  /** A request without a recipient, project or milestone gets 400 before the
      key is loaded and without any creation call. */
  lemma MissingFieldsNoMint(env: Env, req: Request, faults: Faults, create: CreateArgs -> Result<Address, string>)
    requires !FieldsPresent(req)
    ensures Post(env, req, faults, create) == Outcome(Response(400, Failed(MissingFieldsMessage)), None)
  {
  }

  /** With the key loading as written, a request with its fields present
      never reaches the creation call and is answered 500: "Unknown
      encoding: base58" when a key is configured. */
  lemma NoMintAsWritten(env: Env, req: Request, faults: Faults, create: CreateArgs -> Result<Address, string>)
    requires FieldsPresent(req)
    requires faults.decodedKey == GetServerKeypairAsWritten(env.solanaPrivateKey)
    ensures Post(env, req, faults, create).created.None?
    ensures Post(env, req, faults, create).response.status == 500
    ensures Truthy(env.solanaPrivateKey) ==>
      Post(env, req, faults, create).response.body == Failed(UnknownEncodingMessage)
  {
  }

  /** When the call is made, it is made with the request's fields, the payer's
      identity, and an empty team when none was sent. */
  lemma CreationArguments(env: Env, req: Request, faults: Faults, create: CreateArgs -> Result<Address, string>)
    requires FieldsPresent(req)
    requires GetServerKeypair(env.solanaPrivateKey, faults.decodedKey).Success? && faults.recipientKey.None?
    ensures Post(env, req, faults, create).created
         == Some(MilestoneArgs(faults.decodedKey.value, req.recipientAddress.value, req.projectName.value,
                               req.milestone.value, TeamOrEmpty(req.teamMembers)))
    ensures req.teamMembers.None? ==> Post(env, req, faults, create).created.value.uri.attributes[2].value == "0"
  {
    assert DecimalString(0) == "0";
  }

  /** Success reports the created asset's address and its explorer link;
      every thrown error is reported as 500 with its message. */
  lemma ReplyMatchesCreation(env: Env, req: Request, faults: Faults, create: CreateArgs -> Result<Address, string>)
    requires FieldsPresent(req)
    ensures var out := Post(env, req, faults, create);
      out.created.Some? ==>
        (create(out.created.value).Success? ==>
           out.response == Response(200, Minted(create(out.created.value).value,
                                                ExplorerUrl(create(out.created.value).value, env.solanaNetwork))))
        && (create(out.created.value).Failure? ==>
           out.response == Response(500, Failed(create(out.created.value).error)))
    ensures var out := Post(env, req, faults, create);
      out.created.None? ==>
        out.response.status == 500
        && out.response.body == Failed(
             if GetServerKeypair(env.solanaPrivateKey, faults.decodedKey).Failure?
             then GetServerKeypair(env.solanaPrivateKey, faults.decodedKey).error
             else faults.recipientKey.value)
  {
  }
}
