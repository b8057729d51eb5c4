/** internal/config: the bot, client and server configuration read at startup, and the
    per-repository configuration fetched from the repository itself. The YAML decoder is a
    parameter: each of its functions is what `yaml.Unmarshal` leaves in a zero-valued target
    (the source drops its error). */
module Config {
  import opened Wrappers
  import opened GitHub
  import ConfigUtil

  const RepoConfigFileLocation: string := "./.github/inclusive_lang.yaml"
  const WebhookSecretKeyName: string := "WEBHOOK_SECRET_KEY"
  const EmptyTermListError: string := "TERM_LIST must contain at least one item"
  const MissingSecretError: string := "WEBHOOK_SECRET_KEY not present in secrets hash"

  datatype BotConfig = BotConfig(appID: int, termList: seq<string>, checkName: string,
                                 checkSuccessSummary: string, checkFailureSummary: string,
                                 checkDetails: string, annotationTitle: string, annotationBody: string)

  const EmptyBotConfig: BotConfig := BotConfig(0, [], "", "", "", "", "", "")

  datatype ClientConfig = ClientConfig(appID: int, privateKeyPath: string)

  datatype ServerConfig = ServerConfig(webhookSecretKey: string)

  const EmptyServerConfig: ServerConfig := ServerConfig("")

  /** `ignore` is Go's `[]string`: `None` is the nil slice (no `ignore` key), which is not
      the same as an empty list. */
  datatype RepoConfig = RepoConfig(ignore: Option<seq<string>>)

  const EmptyRepoConfig: RepoConfig := RepoConfig(None)

  datatype Yaml = Yaml(
    botConfig: string -> BotConfig,        // the `botConfig` key of the configuration file
    clientConfig: string -> ClientConfig,  // the `clientConfig` key of the configuration file
    repoConfig: string -> RepoConfig)      // a repository's configuration file

  /** `Config`: the configuration the bot is started with. */
  datatype Config = Config(forBot: BotConfig, forClient: ClientConfig, forServer: ServerConfig)

  /** `getBotConfig`: fails exactly when the decoded term list is empty. */
  function GetBotConfig(yaml: Yaml, raw: string): (r: (BotConfig, Option<string>))
    ensures r.1.Some? <==> |yaml.botConfig(raw).termList| == 0
    ensures r.1.Some? ==> r == (EmptyBotConfig, Some(EmptyTermListError))
    ensures r.1.None? ==> r.0 == yaml.botConfig(raw) && |r.0.termList| > 0
  {
    var bc := yaml.botConfig(raw);
    if |bc.termList| == 0 then (EmptyBotConfig, Some(EmptyTermListError)) else (bc, None)
  }

  /** `getClientConfig`: never fails. */
  function GetClientConfig(yaml: Yaml, raw: string): (r: (ClientConfig, Option<string>))
    ensures r.1.None?
    ensures r.0 == yaml.clientConfig(raw)
  {
    (yaml.clientConfig(raw), None)
  }

  /** `getServerConfig`: the secret stored under `WEBHOOK_SECRET_KEY`, or an error. */
  function GetServerConfig(secretHash: map<string, string>): (r: (ServerConfig, Option<string>))
    ensures r.1.None? <==> WebhookSecretKeyName in secretHash
    ensures r.1.None? ==> r.0.webhookSecretKey == secretHash[WebhookSecretKeyName]
    ensures r.1.Some? ==> r == (EmptyServerConfig, Some(MissingSecretError))
  {
    if WebhookSecretKeyName in secretHash then (ServerConfig(secretHash[WebhookSecretKeyName]), None)
    else (EmptyServerConfig, Some(MissingSecretError))
  }

  /** The one request `GetRepoConfig` makes: the fixed configuration path at the given ref. */
  function RepoConfigRequest(repo: Repository, head: string): ContentsRequest {
    ContentsRequest(repo.ownerLogin, repo.name, RepoConfigFileLocation, head)
  }

  /** The request succeeded, the content decoded, and the status is 200. */
  predicate Fetched(reply: ContentsReply) {
    reply.err.None? && reply.content.Success? && reply.status == 200
  }

  /** `GetRepoConfig`: the decoded configuration file, or the empty configuration whatever
      went wrong; it never reports an error. */
  function GetRepoConfig(api: Api, yaml: Yaml, repo: Repository, head: string): (c: RepoConfig)
    ensures Fetched(api.getContents(RepoConfigRequest(repo, head))) ==>
              c == yaml.repoConfig(api.getContents(RepoConfigRequest(repo, head)).content.value)
    ensures !Fetched(api.getContents(RepoConfigRequest(repo, head))) ==> c == EmptyRepoConfig
  {
    var reply := api.getContents(RepoConfigRequest(repo, head));
    var raw: Result<string, string> := if reply.err.Some? then Failure(reply.err.value) else reply.content;
    if raw.Success? && reply.status == 200 then yaml.repoConfig(raw.value) else EmptyRepoConfig
  }

  /** What `GetRepoConfig` returns depends on the reply to the fixed-path request alone. */
  lemma GetRepoConfigAsksOnlyForConfigFile(api1: Api, api2: Api, yaml: Yaml, repo: Repository, head: string)
    requires api1.getContents(RepoConfigRequest(repo, head)) == api2.getContents(RepoConfigRequest(repo, head))
    ensures GetRepoConfig(api1, yaml, repo, head) == GetRepoConfig(api2, yaml, repo, head)
  {
  }

  /** `New(configFilepath)`: reads the secrets, the configuration file, and the three
      configurations in turn; the first step that fails halts startup with its error. */
  method New(fs: ConfigUtil.FileSystem, yaml: Yaml, configFilepath: string) returns (r: Result<Config, string>)
    ensures ConfigUtil.SecretsOf(fs, ConfigUtil.SecretsDir).1.Some? ==>
              r == Failure(ConfigUtil.SecretsOf(fs, ConfigUtil.SecretsDir).1.value)
    ensures ConfigUtil.SecretsOf(fs, ConfigUtil.SecretsDir).1.None? && fs.readFile(configFilepath).Failure? ==>
              r == Failure(fs.readFile(configFilepath).error)
    ensures r.Success? <==>
              && ConfigUtil.SecretsOf(fs, ConfigUtil.SecretsDir).1.None?
              && fs.readFile(configFilepath).Success?
              && |yaml.botConfig(fs.readFile(configFilepath).value).termList| > 0
              && WebhookSecretKeyName in ConfigUtil.SecretsOf(fs, ConfigUtil.SecretsDir).0
    ensures r.Success? ==>
              var raw := fs.readFile(configFilepath).value;
              r.value == Config(yaml.botConfig(raw), yaml.clientConfig(raw),
                                ServerConfig(ConfigUtil.SecretsOf(fs, ConfigUtil.SecretsDir).0[WebhookSecretKeyName]))
  {
    var sh, err := ConfigUtil.Secrets(fs);
    if err.Some? {
      return Failure(err.value);
    }
    var config := fs.readFile(configFilepath);
    if config.Failure? {
      return Failure(config.error);
    }
    var (bc, bErr) := GetBotConfig(yaml, config.value);
    if bErr.Some? {
      return Failure(bErr.value);
    }
    var (cc, cErr) := GetClientConfig(yaml, config.value);
    if cErr.Some? {
      assert false;  // getClientConfig never fails
    }
    var (sc, sErr) := GetServerConfig(sh);
    if sErr.Some? {
      return Failure(sErr.value);
    }
    r := Success(Config(bc, cc, sc));
  }
}
