/** The milestone NFT builder of utils/nft.ts: the metadata record and the
    arguments of the one asset-creation call, made under the server key's
    identity with the recipient as token owner. The asset creation itself is
    the SDK's: a function from the arguments to the new asset's address or
    the error it throws. */
module Nft {
  import opened Wrappers
  import opened JsText
  import opened Solana

  const ImageBaseUrl := "https://api.dicebear.com/7.x/shapes/svg?seed="
  const SellerFeeBasisPoints: nat := 500

  datatype Attribute = Attribute(traitType: string, value: string)

  /** The off-chain metadata, kept as a record rather than its JSON text. */
  datatype Metadata = Metadata(name: string, description: string, image: string, attributes: seq<Attribute>)

  /** The arguments of `metaplex.nfts().create`. */
  datatype CreateArgs = CreateArgs(
    identity: Address,             // the signing identity (the payer)
    uri: Metadata,
    name: string,
    sellerFeeBasisPoints: nat,
    tokenOwner: Address)

  const DescriptionPrefix := "Milestone NFT for "
  const TeamLabel := ". Team: "

  function Description(projectName: string, teamMembers: seq<string>): string
  {
    DescriptionPrefix + projectName + TeamLabel + Join(teamMembers, ", ")
  }

  function MilestoneMetadata(projectName: string, milestone: string, teamMembers: seq<string>): (m: Metadata)
    ensures |m.attributes| == 3
  {
    Metadata(
      projectName + " - " + milestone,
      Description(projectName, teamMembers),
      ImageBaseUrl + projectName,
      [ Attribute("Project", projectName),
        Attribute("Milestone", milestone),
        Attribute("Team Size", DecimalString(|teamMembers|)) ])
  }

  /** The creation arguments: the payer signs and the recipient owns the
      token; the metadata name joins project and milestone with " - ", the
      on-chain name is the project followed by " Milestone", and the fee is
      500 basis points. */
  function MilestoneArgs(payer: Keypair, recipient: Address, projectName: string, milestone: string,
                         teamMembers: seq<string>): (args: CreateArgs)
    ensures args.identity == payer.publicKey
    ensures args.tokenOwner == recipient
    ensures args.uri == MilestoneMetadata(projectName, milestone, teamMembers)
    ensures args.uri.name == projectName + " - " + milestone
    ensures args.name == projectName + " Milestone"
    ensures args.sellerFeeBasisPoints == 500
  {
    CreateArgs(payer.publicKey, MilestoneMetadata(projectName, milestone, teamMembers),
               projectName + " Milestone", SellerFeeBasisPoints, recipient)
  }

  /** `mintMilestoneNFT`: one creation call, signed by the payer, giving the
      token to the recipient with the milestone's metadata, names and fee;
      its result is the new asset's address or the error it throws. */
  function MintMilestoneNFT(payer: Keypair, recipient: Address, projectName: string, milestone: string,
                            teamMembers: seq<string>, create: CreateArgs -> Result<Address, string>)
    : (r: Result<Address, string>)
    ensures r == create(CreateArgs(
      identity := payer.publicKey,
      uri := MilestoneMetadata(projectName, milestone, teamMembers),
      name := projectName + " Milestone",
      sellerFeeBasisPoints := 500,
      tokenOwner := recipient))
  {
    create(MilestoneArgs(payer, recipient, projectName, milestone, teamMembers))
  }

  /** The project, the milestone and the team size can all be read back from
      the attributes, which come in the order Project, Milestone, Team Size. */
  lemma AttributesRecoverInputs(projectName: string, milestone: string, teamMembers: seq<string>)
    ensures var m := MilestoneMetadata(projectName, milestone, teamMembers);
      && m.attributes[0] == Attribute("Project", projectName)
      && m.attributes[1] == Attribute("Milestone", milestone)
      && m.attributes[2].traitType == "Team Size"
      && ParseInt(m.attributes[2].value) == Some(|teamMembers|)
  {
    ParseDecimalString(|teamMembers|);
  }

  /** Every team member is named in the description. */
  lemma DescriptionNamesTeam(projectName: string, teamMembers: seq<string>, i: nat)
    requires i < |teamMembers|
    ensures Contains(Description(projectName, teamMembers), teamMembers[i])
  {
    JoinContainsPart(teamMembers, ", ", i);
    ContainsWithin(DescriptionPrefix + projectName + TeamLabel, Join(teamMembers, ", "), "", teamMembers[i]);
    assert DescriptionPrefix + projectName + TeamLabel + Join(teamMembers, ", ") + ""
        == Description(projectName, teamMembers);
  }

  /** An empty team is accepted: nothing follows "Team: " and the team size is "0". */
  lemma EmptyTeam(projectName: string, milestone: string)
    ensures var m := MilestoneMetadata(projectName, milestone, []);
      && m.description == "Milestone NFT for " + projectName + ". Team: "
      && m.attributes[2] == Attribute("Team Size", "0")
  {
    assert DecimalString(0) == "0";
  }

  /** The image is determined by the project name alone, and different
      projects get different images. */
  lemma ImageKeyedByProject(p1: string, m1: string, t1: seq<string>, p2: string, m2: string, t2: seq<string>)
    ensures MilestoneMetadata(p1, m1, t1).image == MilestoneMetadata(p2, m2, t2).image <==> p1 == p2
  {
    if MilestoneMetadata(p1, m1, t1).image == MilestoneMetadata(p2, m2, t2).image {
      assert (ImageBaseUrl + p1)[|ImageBaseUrl|..] == p1;
      assert (ImageBaseUrl + p2)[|ImageBaseUrl|..] == p2;
    }
  }
}
