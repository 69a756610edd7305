/**
 * The bot configuration (bot_config.go): an immutable record of the access
 * token, the endpoint URL template and the debug flag. It has no setters, so
 * it is a value: two configurations are equal exactly when their getters agree.
 */
module Config {

  /** The default endpoint template; the first `%s` takes the token, the second the method. */
  const APIEndpoint: string := "https://api.telegram.org/bot%s/%s"

  datatype BotConfig = BotConfig(token: string, debug: bool, apiEndpoint: string)

  function GetApiEndpoint(c: BotConfig): string { c.apiEndpoint }

  function GetToken(c: BotConfig): string { c.token }

  function GetDebug(c: BotConfig): bool { c.debug }

  /** `NewBotConfig`: every getter returns what was passed in. */
  function NewBotConfig(token: string, apiEndpoint: string, debug: bool): (c: BotConfig)
    ensures GetToken(c) == token
    ensures GetApiEndpoint(c) == apiEndpoint
    ensures GetDebug(c) == debug
  {
    BotConfig(token, debug, apiEndpoint)
  }

  /** `NewDefaultBotConfig`: keeps the token, debug off, the default endpoint. */
  function NewDefaultBotConfig(token: string): (c: BotConfig)
    ensures GetToken(c) == token
    ensures !GetDebug(c)
    ensures GetApiEndpoint(c) == APIEndpoint
  {
    BotConfig(token, false, APIEndpoint)
  }

  /** The default constructor is the general one with debug off and the default endpoint. */
  lemma DefaultIsSpecialCase(token: string)
    ensures NewDefaultBotConfig(token) == NewBotConfig(token, APIEndpoint, false)
  {
  }

  /**
   * A configuration is determined by its three getters: rebuilding it from
   * them gives it back, and two configurations with the same getters are equal.
   * Since no operation changes a configuration, what a getter returns never changes.
   */
  lemma ConfigDeterminedByGetters(a: BotConfig, b: BotConfig)
    ensures NewBotConfig(GetToken(a), GetApiEndpoint(a), GetDebug(a)) == a
    ensures a == b <==>
              GetToken(a) == GetToken(b) && GetApiEndpoint(a) == GetApiEndpoint(b) && GetDebug(a) == GetDebug(b)
  {
  }
}
