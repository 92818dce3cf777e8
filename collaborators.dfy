/**
 * The services the activity consults, reduced to what it can observe of them:
 * lookup tables for the stores, plain functions for the OAuth injector and
 * for parsing a UUID from its text.
 */
module Collaborators {
  import opened Wrappers
  import opened JavaNumbers
  import opened JobModels

  /** `JobPersistence.getJob`. */
  datatype JobPersistence = JobPersistence(jobs: map<Int64, Job>)

  /** The `ConfigRepository` queries the activity makes. */
  datatype ConfigRepository = ConfigRepository(
    standardSyncs: map<Uuid, StandardSync>,                       // getStandardSync(connectionId)
    sourceConnections: map<Uuid, SourceConnection>,               // getSourceConnection(sourceId)
    destinationConnections: map<Uuid, DestinationConnection>,     // getDestinationConnection(destinationId)
    standardSourceDefinitions: map<Uuid, StandardSourceDefinition>,            // by definition id
    standardDestinationDefinitions: map<Uuid, StandardDestinationDefinition>,  // by definition id
    sourceDefinitionsBySource: map<Uuid, StandardSourceDefinition>)            // getSourceDefinitionFromSource(sourceId)

  /** `OAuthConfigSupplier`: (definition id, workspace id, raw configuration) to the configuration with OAuth parameters. */
  datatype OAuthConfigSupplier = OAuthConfigSupplier(
    injectSourceOAuthParameters: (Uuid, Uuid, Json) -> Json,
    injectDestinationOAuthParameters: (Uuid, Uuid, Json) -> Json)

  /** `StateApi.getState`: the state stored for each connection that has one. */
  datatype StateApi = StateApi(states: map<Uuid, State>) {
    /** A connection with no state yet yields no state, never an error. */
    function GetState(connectionId: Uuid): Option<State> {
      if connectionId in states then Some(states[connectionId]) else None
    }
  }

  /** The `CommitStatesAsap` flag as the feature-flag client resolves it for each connection. */
  datatype FeatureFlagClient = FeatureFlagClient(commitStatesAsap: map<Uuid, bool>) {
    /** A connection the client has no value for gets the flag's default, false. */
    function CommitStatesAsap(connectionId: Uuid): bool {
      connectionId in commitStatesAsap && commitStatesAsap[connectionId]
    }
  }

  /** What the activity is constructed with (the attempt API is the activity's own log). */
  datatype Services = Services(
    jobPersistence: JobPersistence,
    configRepository: ConfigRepository,
    stateApi: StateApi,
    featureFlagClient: FeatureFlagClient,
    oAuthConfigSupplier: OAuthConfigSupplier,
    uuidFromString: string -> Option<Uuid>)   // UUID.fromString, failing on malformed text
}
