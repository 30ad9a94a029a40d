/** The ledger helpers of utils/solana.ts: network and endpoint selection, the
    server keypair guard, creation of the reward token's mint and minting of
    reward tokens, over an abstract ledger. The ledger stands for the chain as
    the SDK calls see it: mints with their authorities, associated token
    accounts, and the log of mint transactions. Every SDK call takes a fault
    argument: `Some(message)` makes that call throw with that message. */
module Solana {
  import opened Wrappers
  import opened JsText
  import opened Config

  /** The base58 text of a public key. */
  type Address = string

  /** A transaction signature; the model identifies a mint transaction by its
      position in the ledger's log. */
  type Signature = nat

  const DevnetEndpoint := "https://api.devnet.solana.com"
  const MainnetEndpoint := "https://api.mainnet-beta.solana.com"

  /** Decimals of the reward token's mint. */
  const CsDecimals: nat := 9

  const MissingKeyMessage := "SOLANA_PRIVATE_KEY not configured"

  /** `NEXT_PUBLIC_SOLANA_NETWORK || 'devnet'` */
  function Network(env: Env): (network: string)
    ensures network != ""
    ensures Truthy(env.solanaNetwork) ==> network == env.solanaNetwork.value
    ensures !Truthy(env.solanaNetwork) ==> network == "devnet"
  {
    OrElse(env.solanaNetwork, "devnet")
  }

  /** The RPC endpoint for a network name: only the exact name
      "mainnet-beta" selects mainnet, every other name selects devnet. */
  function RpcEndpoint(network: string): (url: string)
    ensures url == MainnetEndpoint || url == DevnetEndpoint
    ensures url == MainnetEndpoint <==> network == "mainnet-beta"
  {
    if network == "mainnet-beta" then MainnetEndpoint else DevnetEndpoint
  }

  /** The server talks to mainnet exactly when the variable holds
      "mainnet-beta"; unset, empty or misspelt, it talks to devnet. */
  lemma EndpointOfEnvironment(env: Env)
    ensures RpcEndpoint(Network(env)) == MainnetEndpoint <==> env.solanaNetwork == Some("mainnet-beta")
    ensures env.solanaNetwork.None? ==> RpcEndpoint(Network(env)) == DevnetEndpoint
  {
  }

  function Pow10(k: nat): (p: nat)
    ensures p >= 1
  {
    if k == 0 then 1 else 10 * Pow10(k - 1)
  }

  /** Whole tokens to base units: `amount * Math.pow(10, 9)`, a billion base
      units per token. */
  function ToBaseUnits(amount: nat): (units: nat)
    ensures units == amount * 1_000_000_000
  {
    Pow10Nine();
    amount * Pow10(CsDecimals)
  }

  /** Base units back to whole tokens for a mint with the given decimals. */
  function ToWholeTokens(units: nat, decimals: nat): int
  {
    units / Pow10(decimals)
  }

  lemma {:induction false} Pow10Nine()
    ensures Pow10(CsDecimals) == 1_000_000_000
  {
    calc {
      Pow10(9);
      10 * Pow10(8);
      100 * Pow10(7);
      1000 * Pow10(6);
      10000 * Pow10(5);
      100000 * Pow10(4);
      1000000 * Pow10(3);
      10000000 * Pow10(2);
      100000000 * Pow10(1);
      1000000000 * Pow10(0);
    }
  }

  /** The conversion matches the reward mint's decimals: a whole number of
      tokens becomes a multiple of 10^9 base units and reads back unchanged. */
  lemma BaseUnitsRoundTrip(amount: nat)
    ensures ToBaseUnits(amount) == amount * 1_000_000_000
    ensures ToBaseUnits(amount) % Pow10(CsDecimals) == 0
    ensures ToWholeTokens(ToBaseUnits(amount), CsDecimals) == amount
  {
    Pow10Nine();
  }

  datatype Keypair = Keypair(publicKey: Address)

  /** `getServerKeypair` as intended: throws when SOLANA_PRIVATE_KEY is unset
      or empty; otherwise yields what decoding the key yields (`decoded`, the
      outcome of a base58 decoding and the key construction, which may itself
      throw). The rest of the model loads the key this way. */
  function GetServerKeypair(privateKey: Option<string>, decoded: Result<Keypair, string>): (r: Result<Keypair, string>)
    ensures !Truthy(privateKey) ==> r == Failure(MissingKeyMessage)
    ensures Truthy(privateKey) ==> r == decoded
  {
    if !Truthy(privateKey) then Failure(MissingKeyMessage) else decoded
  }

  /** The error Node's `Buffer.from` throws for an encoding it does not know;
      it knows no "base58". */
  const UnknownEncodingMessage := "Unknown encoding: base58"

  /** `getServerKeypair` as written: the key text goes through
      `Buffer.from(key, 'base58')`, which throws for every configured key. */
  function GetServerKeypairAsWritten(privateKey: Option<string>): (r: Result<Keypair, string>)
    ensures r.Failure?
    ensures !Truthy(privateKey) ==> r.error == MissingKeyMessage
    ensures Truthy(privateKey) ==> r.error == UnknownEncodingMessage
  {
    if !Truthy(privateKey) then Failure(MissingKeyMessage) else Failure(UnknownEncodingMessage)
  }

  /** As written, no configured key ever loads, whereas a base58 decoder
      yields the keypair the key encodes. */
  lemma KeyNeverLoadsAsWritten(key: string, keypair: Keypair)
    requires key != ""
    ensures GetServerKeypairAsWritten(Some(key)) == Failure(UnknownEncodingMessage)
    ensures GetServerKeypair(Some(key), Success(keypair)) == Success(keypair)
    ensures GetServerKeypairAsWritten(Some(key)) != GetServerKeypair(Some(key), Success(keypair))
  {
  }

  /** A mint's authorities and decimals. */
  datatype MintInfo = MintInfo(mintAuthority: Address, freezeAuthority: Address, decimals: nat)

  /** The associated token account of `owner` for `mint`. */
  datatype TokenAccount = TokenAccount(mint: Address, owner: Address)

  /** One `mintTo` transaction: `amount` base units into `destination`,
      signed by `authority`. */
  datatype MintRecord = MintRecord(destination: TokenAccount, authority: Address, amount: nat)

  /** The base units the log has minted into one account. */
  function Balance(log: seq<MintRecord>, account: TokenAccount): nat
  {
    if log == [] then 0
    else
      var last := log[|log| - 1];
      Balance(log[..|log| - 1], account) + (if last.destination == account then last.amount else 0)
  }

  /** Balances add up over consecutive parts of the log. */
  lemma {:induction false} BalanceAppend(a: seq<MintRecord>, b: seq<MintRecord>, account: TokenAccount)
    ensures Balance(a + b, account) == Balance(a, account) + Balance(b, account)
  {
    if b != [] {
      var front := b[..|b| - 1];
      BalanceAppend(a, front, account);
      assert (a + b)[..|a + b| - 1] == a + front;
    } else {
      assert a + b == a;
    }
  }

  class Ledger {
    var mints: map<Address, MintInfo>
    var accounts: set<TokenAccount>
    var log: seq<MintRecord>

    /** Tokens are only ever minted into token accounts that exist. */
    ghost predicate Valid()
      reads this
    {
      forall i :: 0 <= i < |log| ==> log[i].destination in accounts
    }

    constructor ()
      ensures Valid()
      ensures mints == map[] && accounts == {} && log == []
    {
      mints := map[];
      accounts := {};
      log := [];
    }

    /** The SDK's `createMint`; `address` is the fresh key the SDK generates. */
    method CreateMint(address: Address, mintAuthority: Address, freezeAuthority: Address, decimals: nat,
                      fault: Option<string>) returns (r: Result<Address, string>)
      requires Valid() && address !in mints
      modifies this
      ensures Valid() && accounts == old(accounts) && log == old(log)
      ensures fault.Some? ==> r == Failure(fault.value) && mints == old(mints)
      ensures fault.None? ==> r == Success(address)
      ensures fault.None? ==> mints == old(mints)[address := MintInfo(mintAuthority, freezeAuthority, decimals)]
    {
      if fault.Some? {
        return Failure(fault.value);
      }
      mints := mints[address := MintInfo(mintAuthority, freezeAuthority, decimals)];
      r := Success(address);
    }

    /** The SDK's `getOrCreateAssociatedTokenAccount`: afterwards the account
        exists, whether it was there before or not. */
    method GetOrCreateAssociatedTokenAccount(mint: Address, owner: Address, fault: Option<string>)
      returns (r: Result<TokenAccount, string>)
      requires Valid()
      modifies this
      ensures Valid() && mints == old(mints) && log == old(log)
      ensures fault.Some? ==> r == Failure(fault.value) && accounts == old(accounts)
      ensures fault.None? ==> r == Success(TokenAccount(mint, owner))
      ensures fault.None? ==> accounts == old(accounts) + {TokenAccount(mint, owner)}
    {
      if fault.Some? {
        return Failure(fault.value);
      }
      accounts := accounts + {TokenAccount(mint, owner)};
      r := Success(TokenAccount(mint, owner));
    }

    /** The SDK's `mintTo`, which needs an existing token account of that mint. */
    method MintTo(mint: Address, destination: TokenAccount, authority: Address, amount: nat,
                  fault: Option<string>) returns (r: Result<Signature, string>)
      requires Valid() && destination in accounts && destination.mint == mint
      modifies this
      ensures Valid() && mints == old(mints) && accounts == old(accounts)
      ensures fault.Some? ==> r == Failure(fault.value) && log == old(log)
      ensures fault.None? ==> r == Success(|old(log)|)
      ensures fault.None? ==> log == old(log) + [MintRecord(destination, authority, amount)]
    {
      if fault.Some? {
        return Failure(fault.value);
      }
      r := Success(|log|);
      log := log + [MintRecord(destination, authority, amount)];
    }
  }

  /** `createCSToken`: a new mint with 9 decimals whose mint authority and
      freeze authority are both the payer. */
  method CreateCSToken(ledger: Ledger, payer: Keypair, address: Address, fault: Option<string>)
    returns (r: Result<Address, string>)
    requires ledger.Valid() && address !in ledger.mints
    modifies ledger
    ensures ledger.Valid() && ledger.accounts == old(ledger.accounts) && ledger.log == old(ledger.log)
    ensures fault.Some? ==> r == Failure(fault.value) && ledger.mints == old(ledger.mints)
    ensures fault.None? ==> r == Success(address)
    ensures fault.None? ==> ledger.mints == old(ledger.mints)[address := MintInfo(payer.publicKey, payer.publicKey, CsDecimals)]
  {
    r := ledger.CreateMint(address, payer.publicKey, payer.publicKey, CsDecimals, fault);
  }

  /** The faults of the two SDK calls one `mintCSTokens` makes. */
  datatype MintFaults = MintFaults(account: Option<string>, mintTo: Option<string>)

  /** The message `mintCSTokens` throws with, if any: that of the first of its
      two steps that fails. */
  function FirstFault(f: MintFaults): (r: Option<string>)
    ensures f.account.Some? ==> r == f.account
    ensures f.account.None? ==> r == f.mintTo
    ensures r.None? <==> f.account.None? && f.mintTo.None?
  {
    if f.account.Some? then f.account else f.mintTo
  }

  /** `mintCSTokens`: make sure the recipient's associated token account
      exists, then mint `amount` whole tokens into it, signed by the payer. */
  method MintCSTokens(ledger: Ledger, mint: Address, recipient: Address, amount: nat, payer: Keypair,
                      faults: MintFaults) returns (r: Result<Signature, string>)
    requires ledger.Valid()
    modifies ledger
    ensures ledger.Valid() && ledger.mints == old(ledger.mints)
    ensures r.Failure? <==> FirstFault(faults).Some?
    ensures r.Failure? ==> r.error == FirstFault(faults).value && ledger.log == old(ledger.log)
    ensures faults.account.Some? ==> ledger.accounts == old(ledger.accounts)
    ensures faults.account.None? ==> ledger.accounts == old(ledger.accounts) + {TokenAccount(mint, recipient)}
    ensures r.Success? ==> r.value == |old(ledger.log)|
    ensures r.Success? ==> ledger.log == old(ledger.log) + [MintRecord(TokenAccount(mint, recipient), payer.publicKey, ToBaseUnits(amount))]
  {
    var account := ledger.GetOrCreateAssociatedTokenAccount(mint, recipient, faults.account);
    if account.Failure? {
      return Failure(account.error);
    }
    r := ledger.MintTo(mint, account.value, payer.publicKey, ToBaseUnits(amount), faults.mintTo);
  }
}
