/**
 * The records the job-input assembly activity reads and produces: the job and
 * its tagged configuration, the connectors, and the assembled inputs handed to
 * the sync workflow and to the pre-flight connection check.
 *
 * UUIDs, JSON configurations, states and catalogs are carried as values and
 * never inspected by the activity.
 */
module JobModels {
  import opened Wrappers
  import opened JavaNumbers

  /** `java.util.UUID`: two 64-bit halves. */
  datatype Uuid = Uuid(mostSigBits: Int64, leastSigBits: Int64)

  /** A JSON document (`JsonNode`). */
  datatype Json =
    | JsonNull
    | JsonBool(b: bool)
    | JsonNumber(n: int)
    | JsonString(s: string)
    | JsonArray(elements: seq<Json>)
    | JsonObject(fields: seq<(string, Json)>)

  /** `Jsons.emptyObject()`: the JSON object with no field. */
  const EmptyObject: Json := JsonObject([])

  /** `WorkerConstants.RESET_JOB_SOURCE_DOCKER_IMAGE_STUB`: the image name that means "no source runs". */
  const ResetJobSourceDockerImageStub: string := "airbyte_empty"

  datatype ConfiguredAirbyteCatalog = ConfiguredAirbyteCatalog(streams: seq<Json>)

  /** A connection's persisted synchronisation state. */
  datatype State = State(state: Json)

  /** `JobConfig.ConfigType`. */
  datatype ConfigType =
    | CheckConnectionSource
    | CheckConnectionDestination
    | DiscoverSchema
    | GetSpec
    | Sync
    | ResetConnection

  datatype JobSyncConfig = JobSyncConfig(
    workspaceId: Uuid,
    sourceDockerImage: string,
    destinationDockerImage: string,
    configuredAirbyteCatalog: ConfiguredAirbyteCatalog)

  datatype JobResetConnectionConfig = JobResetConnectionConfig(
    workspaceId: Uuid,
    destinationDockerImage: string,
    configuredAirbyteCatalog: ConfiguredAirbyteCatalog)

  /** A type tag and the payload for that type; a payload may be absent. */
  datatype JobConfig = JobConfig(
    configType: ConfigType,
    sync: Option<JobSyncConfig>,
    resetConnection: Option<JobResetConnectionConfig>)

  /** A persisted job; for sync and reset jobs its scope is the connection id as text. */
  datatype Job = Job(id: Int64, scope: string, config: JobConfig)

  /** The part of a connection that names its two connectors. */
  datatype StandardSync = StandardSync(sourceId: Uuid, destinationId: Uuid)

  datatype SourceConnection = SourceConnection(
    sourceId: Uuid,
    workspaceId: Uuid,
    sourceDefinitionId: Uuid,
    configuration: Json)

  datatype DestinationConnection = DestinationConnection(
    destinationId: Uuid,
    workspaceId: Uuid,
    destinationDefinitionId: Uuid,
    configuration: Json)

  datatype StandardSourceDefinition = StandardSourceDefinition(sourceDefinitionId: Uuid)

  datatype StandardDestinationDefinition = StandardDestinationDefinition(destinationDefinitionId: Uuid)

  /** Everything the replication of one attempt needs; `state` is absent when the connection has none yet. */
  datatype StandardSyncInput = StandardSyncInput(
    workspaceId: Uuid,
    sourceId: Uuid,
    destinationId: Uuid,
    sourceConfiguration: Json,
    destinationConfiguration: Json,
    state: Option<State>,
    catalog: ConfiguredAirbyteCatalog,
    commitStateAsap: bool)

  /** The configuration an attempt runs with, as saved through the attempt API. */
  datatype AttemptSyncConfig = AttemptSyncConfig(
    sourceConfiguration: Json,
    destinationConfiguration: Json,
    state: Option<State>)

  datatype JobRunConfig = JobRunConfig(jobId: string, attemptId: Int64)

  datatype IntegrationLauncherConfig = IntegrationLauncherConfig(jobId: string, attemptId: Int64, dockerImage: string)

  datatype GeneratedJobInput = GeneratedJobInput(
    jobRunConfig: JobRunConfig,
    sourceLauncherConfig: IntegrationLauncherConfig,
    destinationLauncherConfig: IntegrationLauncherConfig,
    syncInput: StandardSyncInput)

  datatype ActorType = Source | Destination

  datatype StandardCheckConnectionInput = StandardCheckConnectionInput(
    actorId: Uuid,
    actorType: ActorType,
    connectionConfiguration: Json)

  datatype SyncJobCheckConnectionInputs = SyncJobCheckConnectionInputs(
    sourceLauncherConfig: IntegrationLauncherConfig,
    destinationLauncherConfig: IntegrationLauncherConfig,
    sourceCheckConnectionInput: StandardCheckConnectionInput,
    destinationCheckConnectionInput: StandardCheckConnectionInput)

  datatype SyncInput = SyncInput(attemptId: Int32, jobId: Int64)

  datatype SyncInputWithAttemptNumber = SyncInputWithAttemptNumber(attemptNumber: Int32, jobId: Int64)

  /**
   * `SaveAttemptSyncConfigRequestBody`: the attempt key and the saved configuration,
   * which travels together with the connection id.
   */
  datatype SaveAttemptSyncConfigRequestBody = SaveAttemptSyncConfigRequestBody(
    jobId: Int64,
    attemptNumber: Int32,
    connectionId: Uuid,
    syncConfig: AttemptSyncConfig)

  /** Why an input cannot be generated. */
  datatype Error =
    | JobNotFound(jobId: Int64)
    | InvalidScope(scope: string)
    | ConnectionNotFound(connectionId: Uuid)
    | SourceNotFound(sourceId: Uuid)
    | DestinationNotFound(destinationId: Uuid)
    | SourceDefinitionNotFound(id: Uuid)
    | DestinationDefinitionNotFound(destinationDefinitionId: Uuid)
    | MissingJobConfig(configType: ConfigType)
    | UnsupportedConfigType(configType: ConfigType)
}
