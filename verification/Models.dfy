/** The rows and records of internal/models that the gateway's logic reads. A Go string is a sequence of
    bytes; here a `string` holds one character per byte. */
module Models {
  import opened Prelude

  datatype Provider = Provider(
    id: string,
    isHealthy: bool,
    breakerEnabled: bool,
    breakerThreshold: real,
    breakerWindowSeconds: int,
    breakerCooldownSeconds: int)

  datatype ProviderEndpoint = ProviderEndpoint(providerID: string, path: string, isSupported: bool, isEnabled: bool)

  /** Rates are USD per million tokens; None means no price configured. */
  datatype ProviderModel = ProviderModel(
    providerID: string,
    modelID: string,
    isAvailable: bool,
    inputRate: Option<real>,
    outputRate: Option<real>,
    cacheReadRate: Option<real>)

  datatype ModelAlias = ModelAlias(
    alias: string,
    providerID: string,
    modelID: string,
    weight: int,
    priority: int,
    isEnabled: bool)

  datatype RoutingData = RoutingData(
    providers: seq<Provider>,
    models: seq<ProviderModel>,
    aliases: seq<ModelAlias>,
    endpoints: seq<ProviderEndpoint>)

  /** The fields of a request log that pricing and statistics read. */
  datatype RequestLog = RequestLog(
    timestamp: int,
    requestedModel: string,
    resolvedModel: string,
    providerID: string,
    providerName: string,
    apiKeyID: string,
    apiKeyName: string,
    statusCode: int,
    totalTimeMs: int,
    promptTokens: Option<int>,
    completionTokens: Option<int>,
    totalTokens: Option<int>,
    cachedTokens: Option<int>)
}
