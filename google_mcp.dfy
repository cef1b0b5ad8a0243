/** Docs-sheet-mcp/main.py: the `GoogleMCPConfig` settings, their validation
    and the stdio parameters of the Google Drive MCP server. Whether a path
    names an existing file is the parameter `fileExists`. */
module GoogleMcp {
  import opened PyText

  /** `GoogleMCPConfig`: both fields are read once, from the environment. */
  datatype GoogleMcpConfig = GoogleMcpConfig(credentialsPath: Option<string>, apiKey: Option<string>)

  /** `GoogleMCPConfig.__init__`. */
  function LoadGoogleMcpConfig(env: Environment): GoogleMcpConfig
  {
    GoogleMcpConfig(Getenv(env, "GOOGLE_APPLICATION_CREDENTIALS"), Getenv(env, "GOOGLE_API_KEY"))
  }

  /** The configuration read from an environment is valid exactly when one
      of the two variables is set to a non-empty value and a non-empty
      credentials path names an existing file. */
  lemma LoadedConfigValid(env: Environment, fileExists: string -> bool)
    ensures var path, key := "GOOGLE_APPLICATION_CREDENTIALS", "GOOGLE_API_KEY";
            Validate(LoadGoogleMcpConfig(env), fileExists).0 <==>
              ((path in env && env[path] != "") || (key in env && env[key] != "")) &&
              (path in env && env[path] != "" ==> fileExists(env[path]))
  {
  }

  const NeitherSet := "Either GOOGLE_APPLICATION_CREDENTIALS" + " or GOOGLE_API_KEY must be set"
  const ConfigurationValid := "Configuration valid"

  /** `GoogleMCPConfig.validate`. */
  function Validate(config: GoogleMcpConfig, fileExists: string -> bool): (r: (bool, string))
    // fails with the "either ... must be set" message iff both are unset or empty
    ensures r == (false, NeitherSet) <==> !Truthy(config.credentialsPath) && !Truthy(config.apiKey)
    // a configured credentials file that does not exist fails, even with an API key
    ensures Truthy(config.credentialsPath) && !fileExists(config.credentialsPath.value) ==>
              r == (false, "Credentials file not found: " + config.credentialsPath.value)
    // every other configuration is valid, including an API key alone
    ensures r.0 <==> (Truthy(config.credentialsPath) || Truthy(config.apiKey)) &&
                     (Truthy(config.credentialsPath) ==> fileExists(config.credentialsPath.value))
    ensures r.0 ==> r.1 == ConfigurationValid
  {
    if !Truthy(config.credentialsPath) && !Truthy(config.apiKey) then
      (false, NeitherSet)
    else if Truthy(config.credentialsPath) && !fileExists(config.credentialsPath.value) then
      var prefix := "Credentials file not found: ";
      var message := prefix + config.credentialsPath.value;
      assert message[0] == 'C' && NeitherSet[0] == 'E';
      (false, message)
    else
      (true, ConfigurationValid)
  }

  /** `StdioServerParameters(command, args, env)`. */
  datatype ServerParameters = ServerParameters(command: string, args: seq<string>, env: map<string, string>)

  /** Reference definition of `env_vars`: each setting that is truthy. */
  function ServerEnv(config: GoogleMcpConfig): map<string, string>
  {
    var withPath := if Truthy(config.credentialsPath)
                    then map["GOOGLE_APPLICATION_CREDENTIALS" := config.credentialsPath.value] else map[];
    if Truthy(config.apiKey) then withPath["GOOGLE_API_KEY" := config.apiKey.value] else withPath
  }

  /** `create_google_mcp_connection`: fills `env_vars` in place, then builds
      the server parameters. */
  method CreateGoogleMcpConnection(config: GoogleMcpConfig) returns (params: ServerParameters)
    ensures params.command == "npx"
    ensures params.args == ["-y", "@modelcontextprotocol/server-gdrive"]
    ensures params.env == ServerEnv(config)
    ensures params.env.Keys <= {"GOOGLE_APPLICATION_CREDENTIALS", "GOOGLE_API_KEY"}
    ensures "GOOGLE_APPLICATION_CREDENTIALS" in params.env <==> Truthy(config.credentialsPath)
    ensures "GOOGLE_API_KEY" in params.env <==> Truthy(config.apiKey)
    ensures Truthy(config.credentialsPath) ==>
              params.env["GOOGLE_APPLICATION_CREDENTIALS"] == config.credentialsPath.value
    ensures Truthy(config.apiKey) ==> params.env["GOOGLE_API_KEY"] == config.apiKey.value
  {
    var envVars: map<string, string> := map[];
    if Truthy(config.credentialsPath) {
      envVars := envVars["GOOGLE_APPLICATION_CREDENTIALS" := config.credentialsPath.value];
    }
    if Truthy(config.apiKey) {
      envVars := envVars["GOOGLE_API_KEY" := config.apiKey.value];
    }
    params := ServerParameters("npx", ["-y", "@modelcontextprotocol/server-gdrive"], envVars);
  }

  /** A validated configuration always passes at least one credential to
      the server, and every value it passes is non-empty. */
  lemma ValidConfigPassesACredential(config: GoogleMcpConfig, fileExists: string -> bool)
    requires Validate(config, fileExists).0
    ensures |ServerEnv(config)| >= 1
    ensures forall k :: k in ServerEnv(config) ==> ServerEnv(config)[k] != ""
  {
    if Truthy(config.credentialsPath) {
      assert "GOOGLE_APPLICATION_CREDENTIALS" in ServerEnv(config);
    } else {
      assert "GOOGLE_API_KEY" in ServerEnv(config);
    }
  }
}
