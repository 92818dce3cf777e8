/**
 * The job-input assembly activity: from a (job id, attempt number) pair it
 * builds the input of a sync or reset attempt, saving the configuration the
 * attempt runs with, and the inputs of the pre-flight connection checks.
 */
module GenerateInputActivity {
  import opened Wrappers
  import opened JavaNumbers
  import opened JobModels
  import opened Collaborators

  // ---------------------------------------------------------------------------
  // Lookups; each fails with the error of the record it could not find.

  function GetJob(svc: Services, jobId: Int64): Result<Job, Error> {
    if jobId in svc.jobPersistence.jobs then Success(svc.jobPersistence.jobs[jobId]) else Failure(JobNotFound(jobId))
  }

  /** The connection id is the job's scope, parsed as a UUID. */
  function ConnectionIdOf(svc: Services, job: Job): Result<Uuid, Error> {
    match svc.uuidFromString(job.scope)
    case Some(connectionId) => Success(connectionId)
    case None => Failure(InvalidScope(job.scope))
  }

  function GetStandardSync(svc: Services, connectionId: Uuid): Result<StandardSync, Error> {
    var syncs := svc.configRepository.standardSyncs;
    if connectionId in syncs then Success(syncs[connectionId]) else Failure(ConnectionNotFound(connectionId))
  }

  function GetSourceConnection(svc: Services, sourceId: Uuid): Result<SourceConnection, Error> {
    var sources := svc.configRepository.sourceConnections;
    if sourceId in sources then Success(sources[sourceId]) else Failure(SourceNotFound(sourceId))
  }

  function GetDestinationConnection(svc: Services, destinationId: Uuid): Result<DestinationConnection, Error> {
    var destinations := svc.configRepository.destinationConnections;
    if destinationId in destinations then Success(destinations[destinationId]) else Failure(DestinationNotFound(destinationId))
  }

  function GetStandardSourceDefinition(svc: Services, sourceDefinitionId: Uuid): Result<StandardSourceDefinition, Error> {
    var definitions := svc.configRepository.standardSourceDefinitions;
    if sourceDefinitionId in definitions then Success(definitions[sourceDefinitionId])
    else Failure(SourceDefinitionNotFound(sourceDefinitionId))
  }

  function GetSourceDefinitionFromSource(svc: Services, sourceId: Uuid): Result<StandardSourceDefinition, Error> {
    var definitions := svc.configRepository.sourceDefinitionsBySource;
    if sourceId in definitions then Success(definitions[sourceId]) else Failure(SourceDefinitionNotFound(sourceId))
  }

  function GetStandardDestinationDefinition(svc: Services, destinationDefinitionId: Uuid): Result<StandardDestinationDefinition, Error> {
    var definitions := svc.configRepository.standardDestinationDefinitions;
    if destinationDefinitionId in definitions then Success(definitions[destinationDefinitionId])
    else Failure(DestinationDefinitionNotFound(destinationDefinitionId))
  }

  // ---------------------------------------------------------------------------
  // OAuth injection: each connector's own definition id, workspace id and raw configuration.

  function InjectedSourceConfiguration(svc: Services, source: SourceConnection): Json {
    svc.oAuthConfigSupplier.injectSourceOAuthParameters(source.sourceDefinitionId, source.workspaceId, source.configuration)
  }

  function InjectedDestinationConfiguration(svc: Services, destination: DestinationConnection): Json {
    svc.oAuthConfigSupplier.injectDestinationOAuthParameters(
      destination.destinationDefinitionId, destination.workspaceId, destination.configuration)
  }

  // ---------------------------------------------------------------------------
  // Attempt identity (`TemporalWorkflowUtils.createJobRunConfig` and the launcher configs).

  function NewJobRunConfig(jobId: Int64, attemptId: Int32): (c: JobRunConfig)
    ensures ParseLong(c.jobId) == Some(jobId)
    ensures c.attemptId as int == attemptId as int
  {
    LongToStringRoundTrip(jobId);
    JobRunConfig(LongToString(jobId), attemptId as Int64)
  }

  function NewLauncherConfig(jobId: Int64, attemptId: Int32, dockerImage: string): (c: IntegrationLauncherConfig)
    ensures ParseLong(c.jobId) == Some(jobId)
    ensures c.attemptId as int == attemptId as int && c.dockerImage == dockerImage
  {
    LongToStringRoundTrip(jobId);
    IntegrationLauncherConfig(LongToString(jobId), attemptId as Int64, dockerImage)
  }

  // ---------------------------------------------------------------------------
  // Sync / reset input.

  /**
   * The branch on the job's type: the sync configuration the rest of the
   * assembly uses, and the source configuration. A reset runs no source: its
   * source configuration is the empty object and its source image the stub.
   */
  function SyncOrResetBranch(svc: Services, config: JobConfig, standardSync: StandardSync): Result<(JobSyncConfig, Json), Error> {
    match config.configType
    case Sync =>
      if config.sync.None? then Failure(MissingJobConfig(Sync))
      else
        var source :- GetSourceConnection(svc, standardSync.sourceId);
        Success((config.sync.value, InjectedSourceConfiguration(svc, source)))
    case ResetConnection =>
      if config.resetConnection.None? then Failure(MissingJobConfig(ResetConnection))
      else
        var reset := config.resetConnection.value;
        var syncConfig := JobSyncConfig(
          reset.workspaceId, ResetJobSourceDockerImageStub, reset.destinationDockerImage, reset.configuredAirbyteCatalog);
        Success((syncConfig, EmptyObject))
    case _ => Failure(UnsupportedConfigType(config.configType))
  }

  /** Every record the sync / reset assembly needs is there (declarative reading of the lookups). */
  ghost predicate SyncInputResolvable(svc: Services, jobId: Int64) {
    var repo := svc.configRepository;
    && jobId in svc.jobPersistence.jobs
    && var job := svc.jobPersistence.jobs[jobId];
       && svc.uuidFromString(job.scope).Some?
       && svc.uuidFromString(job.scope).value in repo.standardSyncs
       && var standardSync := repo.standardSyncs[svc.uuidFromString(job.scope).value];
          && ((job.config.configType == Sync && job.config.sync.Some? && standardSync.sourceId in repo.sourceConnections)
              || (job.config.configType == ResetConnection && job.config.resetConnection.Some?))
          && standardSync.sourceId in repo.sourceDefinitionsBySource
          && standardSync.destinationId in repo.destinationConnections
          && repo.destinationConnections[standardSync.destinationId].destinationDefinitionId in repo.standardDestinationDefinitions
  }

  /**
   * `getSyncWorkflowInput`: the generated input, and the save request the
   * activity sends to the attempt API before returning it.
   */
  function SyncWorkflowInput(svc: Services, input: SyncInput): (r: Result<(GeneratedJobInput, SaveAttemptSyncConfigRequestBody), Error>)
    ensures r.Success? <==> SyncInputResolvable(svc, input.jobId)
    ensures input.jobId !in svc.jobPersistence.jobs ==> r == Failure(JobNotFound(input.jobId))
    ensures r.Success? ==>
      var (generated, save) := r.value;
      var job := svc.jobPersistence.jobs[input.jobId];
      // the attempt is identified by the job id's decimal text and the widened attempt number
      && ParseLong(generated.jobRunConfig.jobId) == Some(input.jobId)
      && generated.jobRunConfig.attemptId as int == input.attemptId as int
      && generated.sourceLauncherConfig.jobId == generated.destinationLauncherConfig.jobId == generated.jobRunConfig.jobId
      && generated.sourceLauncherConfig.attemptId == generated.destinationLauncherConfig.attemptId == generated.jobRunConfig.attemptId
      // one save, keyed by this attempt, of exactly the configurations and state being returned
      && save.jobId == input.jobId && save.attemptNumber == input.attemptId
      && save.syncConfig == AttemptSyncConfig(
           generated.syncInput.sourceConfiguration, generated.syncInput.destinationConfiguration, generated.syncInput.state)
      // state and flag are those of the connection named by the job's scope
      && svc.uuidFromString(job.scope) == Some(save.connectionId)
      && generated.syncInput.state == svc.stateApi.GetState(save.connectionId)
      && generated.syncInput.commitStateAsap == svc.featureFlagClient.CommitStatesAsap(save.connectionId)
      // a reset runs no source
      && (job.config.configType == ResetConnection ==>
            generated.syncInput.sourceConfiguration == EmptyObject
            && generated.sourceLauncherConfig.dockerImage == ResetJobSourceDockerImageStub)
  {
    var job :- GetJob(svc, input.jobId);
    var connectionId :- ConnectionIdOf(svc, job);
    var standardSync :- GetStandardSync(svc, connectionId);
    var branch :- SyncOrResetBranch(svc, job.config, standardSync);
    var (config, sourceConfiguration) := branch;
    var sourceDefinition :- GetSourceDefinitionFromSource(svc, standardSync.sourceId);
    var destination :- GetDestinationConnection(svc, standardSync.destinationId);
    var destinationDefinition :- GetStandardDestinationDefinition(svc, destination.destinationDefinitionId);
    var attemptSyncConfig := AttemptSyncConfig(
      sourceConfiguration, InjectedDestinationConfiguration(svc, destination), svc.stateApi.GetState(connectionId));
    var syncInput := StandardSyncInput(
      config.workspaceId,
      standardSync.sourceId,
      standardSync.destinationId,
      attemptSyncConfig.sourceConfiguration,
      attemptSyncConfig.destinationConfiguration,
      attemptSyncConfig.state,
      config.configuredAirbyteCatalog,
      svc.featureFlagClient.CommitStatesAsap(connectionId));
    var generated := GeneratedJobInput(
      NewJobRunConfig(input.jobId, input.attemptId),
      NewLauncherConfig(input.jobId, input.attemptId, config.sourceDockerImage),
      NewLauncherConfig(input.jobId, input.attemptId, config.destinationDockerImage),
      syncInput);
    Success((generated, SaveAttemptSyncConfigRequestBody(input.jobId, input.attemptId, connectionId, attemptSyncConfig)))
  }

  // ---------------------------------------------------------------------------
  // Check-connection inputs.

  /** Every record the check-connection assembly needs is there. */
  ghost predicate CheckConnectionInputsResolvable(svc: Services, jobId: Int64) {
    var repo := svc.configRepository;
    && jobId in svc.jobPersistence.jobs
    && var job := svc.jobPersistence.jobs[jobId];
       && job.config.configType == Sync && job.config.sync.Some?
       && svc.uuidFromString(job.scope).Some?
       && svc.uuidFromString(job.scope).value in repo.standardSyncs
       && var standardSync := repo.standardSyncs[svc.uuidFromString(job.scope).value];
          && standardSync.sourceId in repo.sourceConnections
          && repo.sourceConnections[standardSync.sourceId].sourceDefinitionId in repo.standardSourceDefinitions
          && standardSync.destinationId in repo.destinationConnections
          && repo.destinationConnections[standardSync.destinationId].destinationDefinitionId in repo.standardDestinationDefinitions
  }

  /** The sync payload of a job the connection checks run for; only sync jobs have one. */
  function SyncConfigOf(config: JobConfig): Result<JobSyncConfig, Error> {
    if config.configType != Sync then Failure(UnsupportedConfigType(config.configType))
    else if config.sync.None? then Failure(MissingJobConfig(Sync))
    else Success(config.sync.value)
  }

  /** `getCheckConnectionInputs`: one check input per connector, with the launcher configs of the sync. */
  function CheckConnectionInputs(svc: Services, input: SyncInputWithAttemptNumber): (r: Result<SyncJobCheckConnectionInputs, Error>)
    ensures r.Success? <==> CheckConnectionInputsResolvable(svc, input.jobId)
    ensures input.jobId !in svc.jobPersistence.jobs ==> r == Failure(JobNotFound(input.jobId))
    ensures r.Success? ==>
      var inputs := r.value;
      && inputs.sourceCheckConnectionInput.actorType == Source
      && inputs.destinationCheckConnectionInput.actorType == Destination
      && ParseLong(inputs.sourceLauncherConfig.jobId) == Some(input.jobId)
      && inputs.sourceLauncherConfig.jobId == inputs.destinationLauncherConfig.jobId
      && inputs.sourceLauncherConfig.attemptId as int == inputs.destinationLauncherConfig.attemptId as int == input.attemptNumber as int
  {
    var job :- GetJob(svc, input.jobId);
    var config :- SyncConfigOf(job.config);
    var connectionId :- ConnectionIdOf(svc, job);
    var standardSync :- GetStandardSync(svc, connectionId);
    var source :- GetSourceConnection(svc, standardSync.sourceId);
    var sourceDefinition :- GetStandardSourceDefinition(svc, source.sourceDefinitionId);
    var destination :- GetDestinationConnection(svc, standardSync.destinationId);
    var destinationDefinition :- GetStandardDestinationDefinition(svc, destination.destinationDefinitionId);
    Success(SyncJobCheckConnectionInputs(
      NewLauncherConfig(input.jobId, input.attemptNumber, config.sourceDockerImage),
      NewLauncherConfig(input.jobId, input.attemptNumber, config.destinationDockerImage),
      StandardCheckConnectionInput(standardSync.sourceId, Source, InjectedSourceConfiguration(svc, source)),
      StandardCheckConnectionInput(standardSync.destinationId, Destination, InjectedDestinationConfiguration(svc, destination))))
  }

  // ---------------------------------------------------------------------------
  // The activity object.

  class GenerateInputActivityImpl {
    const services: Services
    /** The `AttemptApi.saveSyncConfig` requests sent so far, oldest first. */
    var savedSyncConfigs: seq<SaveAttemptSyncConfigRequestBody>

    constructor (services: Services)
      ensures this.services == services && savedSyncConfigs == []
    {
      this.services := services;
      savedSyncConfigs := [];
    }

    /** `AttemptApi.saveSyncConfig`. */
    method SaveSyncConfig(request: SaveAttemptSyncConfigRequestBody)
      modifies this
      ensures savedSyncConfigs == old(savedSyncConfigs) + [request]
    {
      savedSyncConfigs := savedSyncConfigs + [request];
    }

    /**
     * Generates the attempt's input and, when that succeeds, saves the attempt's
     * configuration exactly once before returning; a failure saves nothing.
     */
    method GetSyncWorkflowInput(input: SyncInput) returns (r: Result<GeneratedJobInput, Error>)
      modifies this
      ensures r.Success? <==> SyncInputResolvable(services, input.jobId)
      ensures r.Failure? ==> r == Failure(SyncWorkflowInput(services, input).error)
      ensures r.Failure? ==> savedSyncConfigs == old(savedSyncConfigs)
      ensures r.Success? ==>
        && |savedSyncConfigs| == |old(savedSyncConfigs)| + 1
        && savedSyncConfigs == old(savedSyncConfigs) + [savedSyncConfigs[|old(savedSyncConfigs)|]]
        && SyncWorkflowInput(services, input) == Success((r.value, savedSyncConfigs[|old(savedSyncConfigs)|]))
    {
      var assembled := SyncWorkflowInput(services, input);
      if assembled.Failure? {
        return Failure(assembled.error);
      }
      var (generated, save) := assembled.value;
      SaveSyncConfig(save);
      r := Success(generated);
    }

    /** Builds the check inputs; it reads no state and saves nothing. */
    method GetCheckConnectionInputs(input: SyncInputWithAttemptNumber) returns (r: Result<SyncJobCheckConnectionInputs, Error>)
      ensures r == CheckConnectionInputs(services, input)
    {
      r := CheckConnectionInputs(services, input);
    }
  }
}
