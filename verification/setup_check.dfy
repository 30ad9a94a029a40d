/** The environment check of scripts/setup-check.js: five flags, each set by
    its own test of one environment variable, the conjunction of the four
    required ones, the count of flags set, and the tips shown once the
    required ones hold. The console text is not modelled. */
module SetupCheck {
  import opened Wrappers
  import opened JsText
  import opened Config
  import Solana

  const OpenAiKeyPrefix := "sk-"

  datatype Checks = Checks(openai: bool, solanaNetwork: bool, solanaKey: bool, appUrl: bool, tokenMint: bool)

  datatype Tip = Faucet | CreateToken | MonitorUsage | ViewTransactions

  /** `Object.values(checks)`, in declaration order. */
  function Flags(c: Checks): seq<bool>
  {
    [c.openai, c.solanaNetwork, c.solanaKey, c.appUrl, c.tokenMint]
  }

  /** `filter(Boolean).length`. */
  function CountTrue(flags: seq<bool>): (n: nat)
    ensures n <= |flags|
    ensures n == |flags| <==> forall i :: 0 <= i < |flags| ==> flags[i]
    ensures n == 0 <==> forall i :: 0 <= i < |flags| ==> !flags[i]
  {
    if flags == [] then 0
    else
      var rest := CountTrue(flags[1..]);
      assert forall i :: 1 <= i < |flags| ==> flags[i] == flags[1..][i - 1];
      (if flags[0] then 1 else 0) + rest
  }

  /** The five tests, each flipping its own flag (lines 10-65 of the script). */
  method CheckVariables(env: Env) returns (checks: Checks)
    ensures checks.openai <==> env.openAiApiKey.Some? && StartsWith(env.openAiApiKey.value, OpenAiKeyPrefix)
    ensures checks.solanaNetwork <==> env.solanaNetwork == Some("devnet") || env.solanaNetwork == Some("mainnet-beta")
    ensures checks.solanaKey <==> Truthy(env.solanaPrivateKey)
    ensures checks.appUrl <==> Truthy(env.appUrl)
    ensures checks.tokenMint <==> Truthy(env.csTokenMintAddress)
  {
    checks := Checks(false, false, false, false, false);
    if Truthy(env.openAiApiKey) {
      if StartsWith(env.openAiApiKey.value, OpenAiKeyPrefix) {
        checks := checks.(openai := true);
      }
    }
    if Truthy(env.solanaNetwork) {
      var network := env.solanaNetwork.value;
      if network == "devnet" || network == "mainnet-beta" {
        checks := checks.(solanaNetwork := true);
      }
    }
    if Truthy(env.solanaPrivateKey) {
      checks := checks.(solanaKey := true);
    }
    if Truthy(env.appUrl) {
      checks := checks.(appUrl := true);
    }
    if Truthy(env.csTokenMintAddress) {
      checks := checks.(tokenMint := true);
    }
  }

  /** The tips, listed only once the four required flags hold. */
  method Tips(env: Env, checks: Checks) returns (tips: seq<Tip>)
    ensures tips == [] <==> !(checks.openai && checks.solanaNetwork && checks.solanaKey && checks.appUrl)
    ensures Faucet in tips <==> tips != [] && env.solanaNetwork == Some("devnet")
    ensures CreateToken in tips <==> tips != [] && !checks.tokenMint
    ensures tips != [] ==> |tips| >= 2 && tips[|tips| - 2..] == [MonitorUsage, ViewTransactions]
  {
    tips := [];
    if checks.openai && checks.solanaNetwork && checks.solanaKey && checks.appUrl {
      if env.solanaNetwork == Some("devnet") {
        tips := tips + [Faucet];
      }
      if !checks.tokenMint {
        tips := tips + [CreateToken];
      }
      tips := tips + [MonitorUsage, ViewTransactions];
    }
  }

  /** The script's run over a given environment. */
  method Run(env: Env) returns (checks: Checks, required: bool, total: nat, tips: seq<Tip>)
    ensures checks.openai <==> env.openAiApiKey.Some? && StartsWith(env.openAiApiKey.value, OpenAiKeyPrefix)
    ensures checks.solanaNetwork <==> env.solanaNetwork == Some("devnet") || env.solanaNetwork == Some("mainnet-beta")
    ensures checks.solanaKey <==> Truthy(env.solanaPrivateKey)
    ensures checks.appUrl <==> Truthy(env.appUrl)
    ensures checks.tokenMint <==> Truthy(env.csTokenMintAddress)
    ensures required <==> checks.openai && checks.solanaNetwork && checks.solanaKey && checks.appUrl
    ensures total == CountTrue(Flags(checks))
    ensures tips == [] <==> !required
    ensures Faucet in tips <==> required && env.solanaNetwork == Some("devnet")
    ensures CreateToken in tips <==> required && !checks.tokenMint
    ensures required ==> |tips| >= 2 && tips[|tips| - 2..] == [MonitorUsage, ViewTransactions]
  {
    checks := CheckVariables(env);
    required := checks.openai && checks.solanaNetwork && checks.solanaKey && checks.appUrl;
    total := CountTrue(Flags(checks));
    tips := Tips(env, checks);
  }

  /** The count runs from 0 to 5; when the required four hold it is at least
      4, and it is 5 exactly when the token mint is set as well. */
  lemma {:induction false} TotalBounds(c: Checks)
    ensures CountTrue(Flags(c)) <= 5
    ensures c.openai && c.solanaNetwork && c.solanaKey && c.appUrl ==>
      CountTrue(Flags(c)) == 4 + (if c.tokenMint then 1 else 0)
  {
    var f1 := [c.solanaNetwork, c.solanaKey, c.appUrl, c.tokenMint];
    var f2 := [c.solanaKey, c.appUrl, c.tokenMint];
    var f3 := [c.appUrl, c.tokenMint];
    var f4 := [c.tokenMint];
    assert Flags(c)[1..] == f1 && f1[1..] == f2 && f2[1..] == f3 && f3[1..] == f4 && f4[1..] == [];
    assert CountTrue(f4) == (if c.tokenMint then 1 else 0);
    assert CountTrue(f3) == (if c.appUrl then 1 else 0) + CountTrue(f4);
    assert CountTrue(f2) == (if c.solanaKey then 1 else 0) + CountTrue(f3);
    assert CountTrue(f1) == (if c.solanaNetwork then 1 else 0) + CountTrue(f2);
    assert CountTrue(Flags(c)) == (if c.openai then 1 else 0) + CountTrue(f1);
  }

  /** A key counts as configured only with the "sk-" prefix, which also makes
      it non-empty. */
  lemma OpenAiFlagNeedsPrefix(key: string)
    ensures StartsWith(key, OpenAiKeyPrefix) ==> Truthy(Some(key))
    ensures !StartsWith("", OpenAiKeyPrefix)
  {
  }

  /** The network check is stricter than the server's own choice: an unset
      variable fails the check although the server then runs on devnet, and a
      variable that passes selects its own endpoint. */
  lemma NetworkFlagAgainstServer(env: Env)
    ensures env.solanaNetwork.None? ==> Solana.RpcEndpoint(Solana.Network(env)) == Solana.DevnetEndpoint
    ensures env.solanaNetwork == Some("devnet") ==> Solana.RpcEndpoint(Solana.Network(env)) == Solana.DevnetEndpoint
    ensures env.solanaNetwork == Some("mainnet-beta") ==> Solana.RpcEndpoint(Solana.Network(env)) == Solana.MainnetEndpoint
  {
  }
}
