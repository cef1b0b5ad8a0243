/** mcp-notion-email/config.py: the `Config` class. Its class attributes are
    evaluated once, when the module is imported (`importEnv`); the later
    `validate_config` call reads GROQ_API_KEY from that captured attribute
    and the other three variables from the environment of the moment. */
module NotionEmailConfig {
  import opened PyText

  /** One entry of `MCP_SERVERS`; env values are what `os.getenv` gave. */
  datatype ServerConfig = ServerConfig(command: string, args: seq<string>, env: map<string, Option<string>>)

  datatype Config = Config(groqApiKey: Option<string>, groqModel: string, mcpServers: map<string, ServerConfig>)

  /** The variables `validate_config` checks, in the order it checks them. */
  const RequiredVariables: seq<string> := [GroqApiKey, NotionApiKey, EmailAddress, EmailPassword]

  const GroqApiKey := "GROQ_API_KEY"
  const NotionApiKey := "NOTION_API_KEY"
  const EmailAddress := "EMAIL_ADDRESS"
  const EmailPassword := "EMAIL_PASSWORD"

  /** The class body of `Config`, evaluated against the import-time environment. */
  function LoadConfig(importEnv: Environment): Config
  {
    Config(
      Getenv(importEnv, "GROQ_API_KEY"),
      "llama-3.3-70b-versatile",
      map[
        "notion" := ServerConfig("npx", ["@modelcontextprotocol/server-notion"],
                                 map["NOTION_API_KEY" := Getenv(importEnv, "NOTION_API_KEY")]),
        "email" := ServerConfig("npx", ["mcp-server-gmail"],
                                map["GMAIL_ADDRESS" := Getenv(importEnv, "EMAIL_ADDRESS"),
                                    "GMAIL_PASSWORD" := Getenv(importEnv, "EMAIL_PASSWORD")])
      ])
  }

  /** The environment variable a server-env key is taken from. */
  function SourceVariable(key: string): string
  {
    if key == "GMAIL_ADDRESS" then "EMAIL_ADDRESS"
    else if key == "GMAIL_PASSWORD" then "EMAIL_PASSWORD"
    else key
  }

  /** Whether `validate_config` counts the variable as present. */
  predicate Present(config: Config, env: Environment, name: string)
  {
    if name == GroqApiKey then Truthy(config.groqApiKey) else Truthy(Getenv(env, name))
  }

  /** Every server env value is read from a variable that `validate_config`
      checks, under the renaming GMAIL_ADDRESS <- EMAIL_ADDRESS,
      GMAIL_PASSWORD <- EMAIL_PASSWORD, NOTION_API_KEY <- itself. So when the
      check passes against the import-time environment, every server gets a
      non-empty value for every variable it needs. */
  lemma ServerEnvCoveredByValidation(importEnv: Environment)
    ensures var servers := LoadConfig(importEnv).mcpServers;
            servers.Keys == {"notion", "email"} &&
            servers["notion"].env.Keys == {"NOTION_API_KEY"} &&
            servers["email"].env.Keys == {"GMAIL_ADDRESS", "GMAIL_PASSWORD"} &&
            forall s, key :: s in servers && key in servers[s].env ==>
              SourceVariable(key) in RequiredVariables &&
              servers[s].env[key] == Getenv(importEnv, SourceVariable(key)) &&
              (Present(LoadConfig(importEnv), importEnv, SourceVariable(key)) ==> Truthy(servers[s].env[key]))
  {
  }

  /** `[name]` when the variable is missing, `[]` otherwise. */
  function IfMissing(config: Config, env: Environment, name: string): seq<string>
  {
    if Present(config, env, name) then [] else [name]
  }

  /** The list `validate_config` builds: its four checks in order. */
  function MissingVariables(config: Config, env: Environment): seq<string>
  {
    IfMissing(config, env, GroqApiKey) + IfMissing(config, env, NotionApiKey) +
    IfMissing(config, env, EmailAddress) + IfMissing(config, env, EmailPassword)
  }

  /** The missing list is the in-order filter of the required variables by
      "unset or empty". */
  lemma MissingVariablesIsFilter(config: Config, env: Environment)
    ensures MissingVariables(config, env) == Filter(RequiredVariables, v => !Present(config, env, v))
  {
    var keep := v => !Present(config, env, v);
    FilterOfFour(GroqApiKey, NotionApiKey, EmailAddress, EmailPassword, keep);
  }

  /** The missing list holds exactly the unset or empty variables, in the
      order GROQ_API_KEY, NOTION_API_KEY, EMAIL_ADDRESS, EMAIL_PASSWORD. */
  lemma MissingVariablesMeaning(config: Config, env: Environment)
    ensures forall v :: v in MissingVariables(config, env) <==> v in RequiredVariables && !Present(config, env, v)
    ensures IsSubsequence(MissingVariables(config, env), RequiredVariables)
  {
    MissingVariablesIsFilter(config, env);
    FilterMeaning(RequiredVariables, v => !Present(config, env, v));
  }

  /** `Config.validate_config`: builds the ordered list of missing variables
      step by step and reports whether it is empty. It never raises; a
      missing variable only produces a warning. */
  method ValidateConfig(config: Config, env: Environment) returns (valid: bool, missing: seq<string>)
    ensures missing == MissingVariables(config, env)
    ensures valid <==> missing == []
    ensures valid <==> forall v :: v in RequiredVariables ==> Present(config, env, v)
  {
    missing := [];
    if !Truthy(config.groqApiKey) {
      missing := missing + [GroqApiKey];
    }
    assert missing == IfMissing(config, env, GroqApiKey);
    if !Truthy(Getenv(env, NotionApiKey)) {
      missing := missing + [NotionApiKey];
    }
    assert missing == IfMissing(config, env, GroqApiKey) + IfMissing(config, env, NotionApiKey);
    if !Truthy(Getenv(env, EmailAddress)) {
      missing := missing + [EmailAddress];
    }
    if !Truthy(Getenv(env, EmailPassword)) {
      missing := missing + [EmailPassword];
    }
    MissingVariablesMeaning(config, env);
    valid := |missing| == 0;
  }
}
