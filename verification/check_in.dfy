/** The check-in route (app/api/check-in/route.ts): validates a scanned
    check-in token and issues the fixed reward. The decision is a pure
    function of the request, the configured reward mint and the clock; the
    issuance is two sequential mints on the ledger, the first of which stays
    applied when the second fails. */
module CheckIn {
  import opened Wrappers
  import opened JsText
  import opened Config
  import opened Solana

  /** Five minutes in milliseconds. */
  const FreshnessWindowMs: int := 5 * 60 * 1000

  /** Whole tokens to the participant and to the operator's own key. */
  const UserReward: nat := 4
  const OperatorReward: nat := 1

  const MissingFieldsMessage := "Missing required fields"
  const ExpiredMessage := "QR code expired"
  const NotConfiguredMessage := "CS Token not configured"

  /** The JSON body; each field is either absent or a string. */
  datatype Request = Request(userAddress: Option<string>, projectId: Option<string>, qrData: Option<string>)

  predicate FieldsPresent(req: Request)
  {
    Truthy(req.userAddress) && Truthy(req.projectId) && Truthy(req.qrData)
  }

  /** The second '-'-separated field of the token, read as the timestamp by
      `const [alias, timestamp] = qrData.split('-')`; undefined (`None`) when
      the token has no '-'. Later fields are ignored. */
  function TimestampField(qrData: string): (field: Option<string>)
    ensures field.None? <==> '-' !in qrData
    ensures field.Some? ==> field.value == Split(qrData, '-')[1] && '-' !in field.value
  {
    if '-' !in qrData then
      SplitNoSeparator(qrData, '-');
      None
    else
      var parts := Split(qrData, '-');
      assert |parts| > 1;
      Some(parts[1])
  }

  /** `parseInt(timestamp)`; `None` is NaN, which is also what an undefined
      field parses to. */
  function CheckInTime(qrData: string): (t: Option<int>)
    ensures '-' !in qrData ==> t.None?
    ensures '-' in qrData ==> t == ParseInt(Split(qrData, '-')[1])
  {
    match TimestampField(qrData)
    case None => None
    case Some(field) => ParseInt(field)
  }

  /** `now - checkInTime > 5 * 60 * 1000`. A comparison with NaN is false, so
      a token whose time does not parse is never expired. */
  function Expired(checkInTime: Option<int>, now: int): (expired: bool)
    ensures checkInTime.None? ==> !expired
    ensures checkInTime.Some? ==> (expired <==> now > checkInTime.value + 300000)
  {
    checkInTime.Some? && now - checkInTime.value > FreshnessWindowMs
  }

  datatype Beneficiary = User(address: string) | Operator

  /** Whole tokens for one beneficiary. */
  datatype Grant = Grant(to: Beneficiary, amount: nat)

  datatype Decision = Reject(status: nat, message: string) | Issue(mint: string, grants: seq<Grant>)

  /** The route's checks, in the order it makes them, up to the first ledger
      call: the fields, then the token's age, then the mint configuration. */
  function Decide(req: Request, tokenMint: Option<string>, now: int): (d: Decision)
    ensures d.Reject? ==> d.status == 400 || d.status == 500
    ensures d.Issue? ==> Truthy(tokenMint) && d.mint == tokenMint.value
    ensures d.Issue? ==> FieldsPresent(req) && d.grants == [Grant(User(req.userAddress.value), UserReward), Grant(Operator, OperatorReward)]
  {
    if !FieldsPresent(req) then Reject(400, MissingFieldsMessage)
    else if Expired(CheckInTime(req.qrData.value), now) then Reject(400, ExpiredMessage)
    else if !Truthy(tokenMint) then Reject(500, NotConfiguredMessage)
    else Issue(tokenMint.value, [Grant(User(req.userAddress.value), UserReward), Grant(Operator, OperatorReward)])
  }

  /** A request lacking any of the three fields is refused first, whatever
      the token, the clock and the configuration. */
  lemma MissingFieldsRejectedFirst(req: Request, tokenMint: Option<string>, now: int)
    ensures Decide(req, tokenMint, now) == Reject(400, MissingFieldsMessage) <==> !FieldsPresent(req)
  {
  }

  /** With the fields present, the token is refused as expired exactly when its
      time parses and more than five minutes have elapsed since it. */
  lemma ExpiredIff(req: Request, tokenMint: Option<string>, now: int)
    requires FieldsPresent(req)
    ensures Decide(req, tokenMint, now) == Reject(400, ExpiredMessage)
        <==> CheckInTime(req.qrData.value).Some? && now - CheckInTime(req.qrData.value).value > 300000
  {
  }

  /** The configuration is only looked at after both input checks pass, and is
      the only source of a 500 before the ledger is touched. */
  lemma ConfigurationCheckedLast(req: Request, tokenMint: Option<string>, now: int)
    ensures Decide(req, tokenMint, now).Reject? && Decide(req, tokenMint, now).status == 500
        <==> FieldsPresent(req) && !Expired(CheckInTime(req.qrData.value), now) && !Truthy(tokenMint)
    ensures Decide(req, tokenMint, now).Issue?
        <==> FieldsPresent(req) && !Expired(CheckInTime(req.qrData.value), now) && Truthy(tokenMint)
  {
  }

  /** A token whose timestamp field is missing, empty or not a number is never
      refused as expired, at any time. */
  lemma UnparseableTimestampNeverExpires(req: Request, tokenMint: Option<string>, now: int)
    requires FieldsPresent(req) && CheckInTime(req.qrData.value).None?
    ensures Decide(req, tokenMint, now) != Reject(400, ExpiredMessage)
    ensures Truthy(tokenMint) ==> Decide(req, tokenMint, now).Issue?
  {
  }

  /** An elapsed time of exactly five minutes is still fresh, one millisecond
      more is not, and a token dated in the future is always fresh. */
  lemma FreshnessBoundary(t: int, now: int)
    ensures !Expired(Some(t), t + 300000)
    ensures Expired(Some(t), t + 300001)
    ensures t >= now ==> !Expired(Some(t), now)
  {
  }

  /** No token is ever consumed: a request accepted at some time is accepted,
      with the same issuance, at every earlier time. In particular the same
      token is accepted again on every call within its window. */
  lemma AcceptedAgainWithinWindow(req: Request, tokenMint: Option<string>, now: int, earlier: int)
    requires Decide(req, tokenMint, now).Issue?
    requires earlier <= now
    ensures Decide(req, tokenMint, earlier) == Decide(req, tokenMint, now)
  {
  }

  function TotalGranted(grants: seq<Grant>): nat
  {
    if grants == [] then 0 else grants[0].amount + TotalGranted(grants[1..])
  }

  /** Every issuance gives five tokens in all: four to the participant first,
      then one to the operator. */
  lemma RewardSplit(req: Request, tokenMint: Option<string>, now: int)
    requires Decide(req, tokenMint, now).Issue?
    ensures TotalGranted(Decide(req, tokenMint, now).grants) == UserReward + OperatorReward == 5
    ensures Decide(req, tokenMint, now).grants[0].to.User? && Decide(req, tokenMint, now).grants[0].amount == 4
    ensures Decide(req, tokenMint, now).grants[1].to == Operator && Decide(req, tokenMint, now).grants[1].amount == 1
  {
    var g := Decide(req, tokenMint, now).grants;
    assert g[1..][1..] == [];
    assert TotalGranted(g[1..]) == 1;
  }

  // ---------------------------------------------------------------------
  // Issuance

  datatype Body =
    | CheckedIn(tokensEarned: nat, userSignature: Signature, founderSignature: Signature)
    | Failed(error: string)

  datatype Response = Response(status: nat, body: Body)

  /** What the foreign calls of one issuance do: the decoded server key (or
      the decoding error), the errors `new PublicKey` throws for the user's
      address and for the configured mint, and the faults of the two mints. */
  datatype IssueFaults = IssueFaults(
    decodedKey: Result<Keypair, string>,
    recipientKey: Option<string>,
    mintKey: Option<string>,
    userMint: MintFaults,
    founderMint: MintFaults)

  /** The first error thrown before any ledger call: loading the keypair,
      then parsing the user's address, then parsing the mint address. */
  function SetupError(env: Env, faults: IssueFaults): (e: Option<string>)
    ensures GetServerKeypair(env.solanaPrivateKey, faults.decodedKey).Failure? ==>
      e == Some(GetServerKeypair(env.solanaPrivateKey, faults.decodedKey).error)
    ensures GetServerKeypair(env.solanaPrivateKey, faults.decodedKey).Success? && faults.recipientKey.Some? ==>
      e == faults.recipientKey
    ensures e.None? <==>
      GetServerKeypair(env.solanaPrivateKey, faults.decodedKey).Success? && faults.recipientKey.None? && faults.mintKey.None?
  {
    var payer := GetServerKeypair(env.solanaPrivateKey, faults.decodedKey);
    if payer.Failure? then Some(payer.error)
    else if faults.recipientKey.Some? then faults.recipientKey
    else faults.mintKey
  }

  /** With the key loading as written, every request that passes the checks
      fails before the first mint, so no check-in ever succeeds. */
  lemma NoIssuanceAsWritten(env: Env, faults: IssueFaults)
    requires faults.decodedKey == GetServerKeypairAsWritten(env.solanaPrivateKey)
    ensures SetupError(env, faults).Some?
    ensures Truthy(env.solanaPrivateKey) ==> SetupError(env, faults) == Some(UnknownEncodingMessage)
  {
  }

  /** The ledger record a grant becomes: the operator's share goes to the
      server key's own token account. */
  function RecordOf(g: Grant, mint: Address, payer: Keypair): MintRecord
  {
    var owner := if g.to.User? then g.to.address else payer.publicKey;
    MintRecord(TokenAccount(mint, owner), payer.publicKey, ToBaseUnits(g.amount))
  }

  /** The two records a complete issuance appends, in order. */
  function Issuance(d: Decision, payer: Keypair): (records: seq<MintRecord>)
    requires d.Issue? && |d.grants| == 2
    ensures |records| == 2
  {
    [RecordOf(d.grants[0], d.mint, payer), RecordOf(d.grants[1], d.mint, payer)]
  }

  /** POST /api/check-in. */
  method Post(ledger: Ledger, env: Env, req: Request, now: int, faults: IssueFaults) returns (resp: Response)
    requires ledger.Valid()
    modifies ledger
    ensures ledger.Valid() && ledger.mints == old(ledger.mints)
    ensures resp.status == 200 <==> resp.body.CheckedIn?
    ensures resp.body.CheckedIn? ==> resp.body.tokensEarned == UserReward
    // Refused by the checks: the ledger is not touched.
    ensures var d := Decide(req, env.csTokenMintAddress, now);
      d.Reject? ==> resp == Response(d.status, Failed(d.message))
                    && ledger.log == old(ledger.log) && ledger.accounts == old(ledger.accounts)
    // A throw before the first mint: nothing on the ledger either.
    ensures var d := Decide(req, env.csTokenMintAddress, now);
      d.Issue? && SetupError(env, faults).Some? ==>
        resp == Response(500, Failed(SetupError(env, faults).value))
        && ledger.log == old(ledger.log) && ledger.accounts == old(ledger.accounts)
    // The participant's mint fails: no record.
    ensures var d := Decide(req, env.csTokenMintAddress, now);
      d.Issue? && SetupError(env, faults).None? && FirstFault(faults.userMint).Some? ==>
        resp == Response(500, Failed(FirstFault(faults.userMint).value)) && ledger.log == old(ledger.log)
    // The operator's mint fails: the participant's record stays.
    ensures var d := Decide(req, env.csTokenMintAddress, now);
      d.Issue? && SetupError(env, faults).None? && FirstFault(faults.userMint).None? && FirstFault(faults.founderMint).Some? ==>
        resp == Response(500, Failed(FirstFault(faults.founderMint).value))
        && ledger.log == old(ledger.log) + Issuance(d, faults.decodedKey.value)[..1]
    // Both mints succeed.
    ensures var d := Decide(req, env.csTokenMintAddress, now);
      d.Issue? && SetupError(env, faults).None? && FirstFault(faults.userMint).None? && FirstFault(faults.founderMint).None? ==>
        resp == Response(200, CheckedIn(UserReward, |old(ledger.log)|, |old(ledger.log)| + 1))
        && ledger.log == old(ledger.log) + Issuance(d, faults.decodedKey.value)
    // Once the mints start, the only accounts added are the participant's
    // (when its account step succeeds) and then the operator's own.
    ensures var d := Decide(req, env.csTokenMintAddress, now);
      d.Issue? && SetupError(env, faults).None? ==>
        ledger.accounts == old(ledger.accounts)
          + (if faults.userMint.account.None? then {TokenAccount(d.mint, req.userAddress.value)} else {})
          + (if FirstFault(faults.userMint).None? && faults.founderMint.account.None?
             then {TokenAccount(d.mint, faults.decodedKey.value.publicKey)} else {})
  {
    var d := Decide(req, env.csTokenMintAddress, now);
    if d.Reject? {
      return Response(d.status, Failed(d.message));
    }
    var payer := GetServerKeypair(env.solanaPrivateKey, faults.decodedKey);
    if payer.Failure? {
      return Response(500, Failed(payer.error));
    }
    if faults.recipientKey.Some? {
      return Response(500, Failed(faults.recipientKey.value));
    }
    if faults.mintKey.Some? {
      return Response(500, Failed(faults.mintKey.value));
    }
    var recipient := req.userAddress.value;
    var userSignature := MintCSTokens(ledger, d.mint, recipient, UserReward, payer.value, faults.userMint);
    if userSignature.Failure? {
      return Response(500, Failed(userSignature.error));
    }
    var founderSignature := MintCSTokens(ledger, d.mint, payer.value.publicKey, OperatorReward, payer.value, faults.founderMint);
    if founderSignature.Failure? {
      return Response(500, Failed(founderSignature.error));
    }
    resp := Response(200, CheckedIn(UserReward, userSignature.value, founderSignature.value));
  }

  /** After a complete issuance the participant's token account holds 4 * 10^9
      more base units and the operator's 10^9 more (both, when the participant
      is the operator). */
  lemma IssuanceBalances(log: seq<MintRecord>, d: Decision, payer: Keypair)
    requires d.Issue? && |d.grants| == 2
    requires d.grants[0].to.User? && d.grants == [Grant(User(d.grants[0].to.address), UserReward), Grant(Operator, OperatorReward)]
    ensures var user := TokenAccount(d.mint, d.grants[0].to.address);
      Balance(log + Issuance(d, payer), user)
        == Balance(log, user) + (if d.grants[0].to.address == payer.publicKey then 5 else 4) * 1_000_000_000
    ensures var operator := TokenAccount(d.mint, payer.publicKey);
      Balance(log + Issuance(d, payer), operator)
        == Balance(log, operator) + (if d.grants[0].to.address == payer.publicKey then 5 else 1) * 1_000_000_000
  {
    var records := Issuance(d, payer);
    var user := TokenAccount(d.mint, d.grants[0].to.address);
    var operator := TokenAccount(d.mint, payer.publicKey);
    BalanceAppend(log, records, user);
    BalanceAppend(log, records, operator);
    assert records[..1] == [records[0]];
    assert [records[0]][..0] == [];
    BaseUnitsRoundTrip(UserReward);
    BaseUnitsRoundTrip(OperatorReward);
    assert records[0] == MintRecord(user, payer.publicKey, 4 * 1_000_000_000);
    assert records[1] == MintRecord(operator, payer.publicKey, 1_000_000_000);
    forall a: TokenAccount
      ensures Balance(records, a) == (if a == user then 4 * 1_000_000_000 else 0) + (if a == operator then 1_000_000_000 else 0)
    {
      assert Balance([records[0]], a) == (if a == user then 4 * 1_000_000_000 else 0);
    }
  }
}
