/**
 * The configuration options the core reads (backend/app/config.py). Only the
 * parser options, the sandbox path and the session length matter to the core;
 * loading them from the environment is outside the model.
 */
module Settings {

  /** `parser_mode`: rules only, rules with a low-confidence fallback, or fallback first. */
  datatype ParserMode = RulesMode | HybridMode | LlmMode

  datatype Config = Config(
    parserMode: ParserMode,
    confidenceLow: real,
    confidenceHigh: real,
    llmApiKey: string,
    sandboxPath: string,
    maxSessionMinutes: int)

  /** The defaults of config.py; `sandboxPath` is the already expanded `~/Desktop/Axion`. */
  function Defaults(sandboxPath: string): (cfg: Config)
    ensures cfg.parserMode == RulesMode && cfg.llmApiKey == ""
    ensures cfg.confidenceLow == 0.55 && cfg.confidenceHigh == 0.80
    ensures cfg.maxSessionMinutes == 60 && cfg.sandboxPath == sandboxPath
  {
    Config(RulesMode, 0.55, 0.80, "", sandboxPath, 60)
  }

  /** Python truthiness of the API key: only the empty string is false. */
  predicate HasLlmKey(cfg: Config) {
    cfg.llmApiKey != ""
  }
}
