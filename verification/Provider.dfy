/** The shared model providers, and the server settings the services read. */
module Provider {
  import opened Prelude
  import opened TenantConfig

  /** Shared API keys by provider, and the two idle thresholds in seconds. */
  datatype Settings = Settings(
    zaiKey: Option<string>,
    moonshotKey: Option<string>,
    minimaxKey: Option<string>,
    idlePause: int,
    idleStop: int)

  const ZAI: ProviderSpec := ProviderSpec(
    "ZAI_API_KEY", "zai-coding", "zai-coding/glm-5", "glm-5", "Z.ai GLM Coding Plan", None, None, true)

  const MOONSHOT: ProviderSpec := ProviderSpec(
    "MOONSHOT_API_KEY", "kimi-coding", "kimi-coding/k2p5", "k2p5", "Moonshot AI Kimi Coding Plan", None, None, true)

  const MINIMAX: ProviderSpec := ProviderSpec(
    "MINIMAX_API_KEY", "minimax-coding", "minimax-coding/MiniMax-M2.5", "MiniMax-M2.5", "MiniMax Coding Plan",
    None, None, true)

  function GetProvider(key: string): Result<ProviderSpec> {
    if key == "zai" then Ok(ZAI)
    else if key == "moonshot" then Ok(MOONSHOT)
    else if key == "minimax" then Ok(MINIMAX)
    else Err(UnknownProvider)
  }

  /** The configured key for a variable; an empty key counts as none. */
  function ApiKey(cfg: Settings, envVar: string): Option<string> {
    var key :=
      if envVar == "ZAI_API_KEY" then cfg.zaiKey
      else if envVar == "MOONSHOT_API_KEY" then cfg.moonshotKey
      else if envVar == "MINIMAX_API_KEY" then cfg.minimaxKey
      else None;
    if key == Some("") then None else key
  }
}
