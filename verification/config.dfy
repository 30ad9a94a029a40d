/** The environment variables the server routes and the setup script read.
    Each is either unset (`None`) or a string, possibly empty. */
module Config {
  import opened Wrappers

  datatype Env = Env(
    openAiApiKey: Option<string>,        // OPENAI_API_KEY
    solanaNetwork: Option<string>,       // NEXT_PUBLIC_SOLANA_NETWORK
    solanaPrivateKey: Option<string>,    // SOLANA_PRIVATE_KEY
    appUrl: Option<string>,              // NEXT_PUBLIC_APP_URL
    csTokenMintAddress: Option<string>   // CS_TOKEN_MINT_ADDRESS
  )
}
