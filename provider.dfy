/**
 The provider itself: Configure resolves the panel host and API key (the
 configuration overrides the environment), rejects unknown and empty values
 with attribute errors, and only then creates the API client it hands to the
 data sources and resources. DataSources and Resources are the registration
 lists.
 */
module Provider {
  import opened Wrappers
  import opened Framework
  import opened Client
  import Guidance

  /** pterodactylProviderModel */
  datatype ProviderAttrs = ProviderAttrs(host: Value<string>, apiKey: Value<string>)

  /** What Configure does outside itself: read an environment variable, create the client. */
  datatype Effect = Getenv(name: string) | NewClient(host: string, apiKey: string)

  const HostEnvVar := "PTERODACTYL_HOST"
  const ApiKeyEnvVar := "PTERODACTYL_API_KEY"

  /** os.Getenv: the variable's value, or "" when it is not set. */
  function LookupEnv(env: map<string, string>, name: string): string {
    if name in env then env[name] else ""
  }

  /** The value Configure uses: the environment's, replaced by the configuration's when that is not null. */
  function Resolve(configured: Value<string>, fromEnv: string): (r: string)
    ensures configured.Known? ==> r == configured.v
    ensures configured.Null? ==> r == fromEnv
  {
    if !configured.IsNull() then configured.ValueOr("") else fromEnv
  }

  const UnknownHost := GuidedAttributeError("host", "Unknown Pterodactyl Panel Host", Guidance.KnownHostRequired)

  const UnknownApiKey := GuidedAttributeError("api_key", "Unknown Pterodactyl Panel API Key", Guidance.KnownApiKeyRequired)

  const MissingHost := GuidedAttributeError("host", "Missing Pterodactyl Panel Host", Guidance.HostRequired)

  /** Attached to the path "apiKey", which is not the name of the schema attribute ("api_key"). */
  const MissingApiKey := GuidedAttributeError("apiKey", "Missing Pterodactyl Panel API Key", Guidance.ApiKeyRequired)

  /** The create failure: the guidance text followed by the client's error message. */
  function CreateFailed(err: string): Diagnostic {
    GuidedError("Unable to Create Pterodactyl API Client", Guidance.ClientCreateFailed, err)
  }

  /** The diagnostic `d` if `c` holds, nothing otherwise. */
  function When(c: bool, d: Diagnostic): (ds: seq<Diagnostic>)
    ensures c <==> ds == [d]
    ensures !c <==> ds == []
  {
    if c then [d] else []
  }

  /**
   pterodactylProvider.Configure. `configDiags` are the diagnostics of decoding
   the configuration into `config`; `env` is the process environment;
   `newClient` answers pterodactyl.NewClient. `dataSourceData` and
   `resourceData` are None when they are left nil.
   */
  method Configure(configDiags: seq<Diagnostic>, config: ProviderAttrs, env: map<string, string>,
                   newClient: (string, string) -> Reply<ApiClient>)
    returns (diags: seq<Diagnostic>, dataSourceData: Option<ApiClient>, resourceData: Option<ApiClient>,
             effects: seq<Effect>)
    ensures HasError(configDiags) ==>
      diags == configDiags && dataSourceData == None && resourceData == None && effects == []
    // unknown values are rejected, both in one call, before the environment is read
    ensures !HasError(configDiags) && (config.host.IsUnknown() || config.apiKey.IsUnknown()) ==>
      && diags == configDiags + When(config.host.IsUnknown(), UnknownHost) + When(config.apiKey.IsUnknown(), UnknownApiKey)
      && dataSourceData == None && resourceData == None && effects == []
    // empty resolved values are rejected, both in one call, and no client is created
    ensures !HasError(configDiags) && !config.host.IsUnknown() && !config.apiKey.IsUnknown() ==>
      var host := Resolve(config.host, LookupEnv(env, HostEnvVar));
      var apiKey := Resolve(config.apiKey, LookupEnv(env, ApiKeyEnvVar));
      && |effects| >= 2 && effects[..2] == [Getenv(HostEnvVar), Getenv(ApiKeyEnvVar)]
      && ((host == "" || apiKey == "") ==>
            && diags == configDiags + When(host == "", MissingHost) + When(apiKey == "", MissingApiKey)
            && dataSourceData == None && resourceData == None && |effects| == 2)
      && ((host != "" && apiKey != "") ==>
            && effects == [Getenv(HostEnvVar), Getenv(ApiKeyEnvVar), NewClient(host, apiKey)]
            && (newClient(host, apiKey).err.Some? ==>
                  diags == configDiags + [CreateFailed(newClient(host, apiKey).err.value)] && dataSourceData == None)
            && (newClient(host, apiKey).err.None? ==>
                  diags == configDiags && dataSourceData == Some(newClient(host, apiKey).value)))
    // one client is handed to both data sources and resources, exactly when no error was reported
    ensures dataSourceData == resourceData
    ensures dataSourceData.Some? <==> !HasError(diags)
  {
    diags, dataSourceData, resourceData, effects := configDiags, None, None, [];
    if HasError(diags) {
      return;
    }

    if config.host.IsUnknown() {
      diags := diags + [UnknownHost];
    }
    if config.apiKey.IsUnknown() {
      diags := diags + [UnknownApiKey];
    }
    ghost var unknown := When(config.host.IsUnknown(), UnknownHost) + When(config.apiKey.IsUnknown(), UnknownApiKey);
    assert diags == configDiags + unknown;
    HasErrorAppend(configDiags, unknown);
    if HasError(diags) {
      return;
    }
    assert unknown == [];
    assert diags == configDiags;

    var host := LookupEnv(env, HostEnvVar);
    var apiKey := LookupEnv(env, ApiKeyEnvVar);
    effects := effects + [Getenv(HostEnvVar), Getenv(ApiKeyEnvVar)];
    if !config.host.IsNull() {
      host := config.host.ValueOr("");
    }
    if !config.apiKey.IsNull() {
      apiKey := config.apiKey.ValueOr("");
    }

    if host == "" {
      diags := diags + [MissingHost];
    }
    if apiKey == "" {
      diags := diags + [MissingApiKey];
    }
    ghost var missing := When(host == "", MissingHost) + When(apiKey == "", MissingApiKey);
    assert diags == configDiags + missing;
    HasErrorAppend(configDiags, missing);
    if HasError(diags) {
      return;
    }
    assert missing == [];
    assert diags == configDiags;

    var reply := newClient(host, apiKey);
    effects := effects + [NewClient(host, apiKey)];
    if reply.err.Some? {
      diags := diags + [CreateFailed(reply.err.value)];
      HasErrorAppend(configDiags, [CreateFailed(reply.err.value)]);
      return;
    }
    dataSourceData := Some(reply.value);
    resourceData := Some(reply.value);
  }

  datatype DataSourceFactory =
    | NewUsersDataSource | NewUserDataSource | NewNodeDataSource | NewNodesDataSource
    | NewNodesLocationDataSource | NewLocationDataSource | NewNodeAllocationsDataSource

  datatype ResourceFactory = NewUserResource | NewNodeResource | NewLocationResource

  /** pterodactylProvider.DataSources: only the two user data sources are registered. */
  function DataSources(): (r: seq<DataSourceFactory>)
    ensures |r| == 2
    ensures forall f :: f in r <==> f == NewUsersDataSource || f == NewUserDataSource
  {
    [NewUsersDataSource, NewUserDataSource]
  }

  /** pterodactylProvider.Resources: only the user resource is registered. */
  function Resources(): (r: seq<ResourceFactory>)
    ensures forall f :: f in r <==> f == NewUserResource
  {
    [NewUserResource]
  }

  /**
   The node, nodes, nodes_location and location data sources are implemented
   but not registered, so a configuration cannot reach them; nor can it reach
   the node and location resources.
   */
  lemma ModelledDataSourcesUnregistered()
    ensures NewNodeDataSource !in DataSources() && NewNodesDataSource !in DataSources()
    ensures NewNodesLocationDataSource !in DataSources() && NewLocationDataSource !in DataSources()
    ensures NewNodeResource !in Resources() && NewLocationResource !in Resources()
  {
  }
}
