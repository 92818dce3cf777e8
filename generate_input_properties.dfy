/**
 * What the activity's tests fix, stated for every value the collaborators may
 * return: the records each lookup yields determine the generated input
 * field by field.
 */
module GenerateInputProperties {
  import opened Wrappers
  import opened JavaNumbers
  import opened JobModels
  import opened Collaborators
  import opened GenerateInputActivity

  /**
   * A sync job: both configurations are the OAuth-injected ones, computed from each
   * connector's own definition id, workspace id and raw configuration; workspace,
   * catalog and images come from the job's sync config; state and flag from the
   * connection named by the scope; the save carries the same configurations and state.
   */
  lemma SyncJobInput(
    svc: Services, input: SyncInput, sync: JobSyncConfig, connectionId: Uuid,
    standardSync: StandardSync, source: SourceConnection, destination: DestinationConnection)
    requires input.jobId in svc.jobPersistence.jobs
    requires svc.jobPersistence.jobs[input.jobId].config.configType == Sync
    requires svc.jobPersistence.jobs[input.jobId].config.sync == Some(sync)
    requires svc.uuidFromString(svc.jobPersistence.jobs[input.jobId].scope) == Some(connectionId)
    requires connectionId in svc.configRepository.standardSyncs
    requires svc.configRepository.standardSyncs[connectionId] == standardSync
    requires standardSync.sourceId in svc.configRepository.sourceConnections
    requires svc.configRepository.sourceConnections[standardSync.sourceId] == source
    requires standardSync.destinationId in svc.configRepository.destinationConnections
    requires svc.configRepository.destinationConnections[standardSync.destinationId] == destination
    requires standardSync.sourceId in svc.configRepository.sourceDefinitionsBySource
    requires destination.destinationDefinitionId in svc.configRepository.standardDestinationDefinitions
    ensures
      var oauth := svc.oAuthConfigSupplier;
      var sourceConfiguration := oauth.injectSourceOAuthParameters(source.sourceDefinitionId, source.workspaceId, source.configuration);
      var destinationConfiguration :=
        oauth.injectDestinationOAuthParameters(destination.destinationDefinitionId, destination.workspaceId, destination.configuration);
      var state := svc.stateApi.GetState(connectionId);
      var jobId, attemptId := LongToString(input.jobId), input.attemptId as Int64;
      SyncWorkflowInput(svc, input) == Success((
        GeneratedJobInput(
          JobRunConfig(jobId, attemptId),
          IntegrationLauncherConfig(jobId, attemptId, sync.sourceDockerImage),
          IntegrationLauncherConfig(jobId, attemptId, sync.destinationDockerImage),
          StandardSyncInput(
            sync.workspaceId, standardSync.sourceId, standardSync.destinationId,
            sourceConfiguration, destinationConfiguration, state,
            sync.configuredAirbyteCatalog, svc.featureFlagClient.CommitStatesAsap(connectionId))),
        SaveAttemptSyncConfigRequestBody(
          input.jobId, input.attemptId, connectionId,
          AttemptSyncConfig(sourceConfiguration, destinationConfiguration, state))))
  {
  }

  /**
   * A reset job: the source configuration is the empty object and the source image
   * the stub; the destination configuration is the OAuth-injected one; workspace,
   * catalog and destination image come from the reset config. Nothing is required
   * of the source connection.
   */
  lemma ResetJobInput(
    svc: Services, input: SyncInput, reset: JobResetConnectionConfig, connectionId: Uuid,
    standardSync: StandardSync, destination: DestinationConnection)
    requires input.jobId in svc.jobPersistence.jobs
    requires svc.jobPersistence.jobs[input.jobId].config.configType == ResetConnection
    requires svc.jobPersistence.jobs[input.jobId].config.resetConnection == Some(reset)
    requires svc.uuidFromString(svc.jobPersistence.jobs[input.jobId].scope) == Some(connectionId)
    requires connectionId in svc.configRepository.standardSyncs
    requires svc.configRepository.standardSyncs[connectionId] == standardSync
    requires standardSync.destinationId in svc.configRepository.destinationConnections
    requires svc.configRepository.destinationConnections[standardSync.destinationId] == destination
    requires standardSync.sourceId in svc.configRepository.sourceDefinitionsBySource
    requires destination.destinationDefinitionId in svc.configRepository.standardDestinationDefinitions
    ensures
      var destinationConfiguration := svc.oAuthConfigSupplier.injectDestinationOAuthParameters(
        destination.destinationDefinitionId, destination.workspaceId, destination.configuration);
      var state := svc.stateApi.GetState(connectionId);
      var jobId, attemptId := LongToString(input.jobId), input.attemptId as Int64;
      SyncWorkflowInput(svc, input) == Success((
        GeneratedJobInput(
          JobRunConfig(jobId, attemptId),
          IntegrationLauncherConfig(jobId, attemptId, ResetJobSourceDockerImageStub),
          IntegrationLauncherConfig(jobId, attemptId, reset.destinationDockerImage),
          StandardSyncInput(
            reset.workspaceId, standardSync.sourceId, standardSync.destinationId,
            EmptyObject, destinationConfiguration, state,
            reset.configuredAirbyteCatalog, svc.featureFlagClient.CommitStatesAsap(connectionId))),
        SaveAttemptSyncConfigRequestBody(
          input.jobId, input.attemptId, connectionId,
          AttemptSyncConfig(EmptyObject, destinationConfiguration, state))))
  {
  }

  /**
   * A reset neither reads the source connection nor calls the source OAuth injector:
   * replacing both leaves its input and its save unchanged.
   */
  lemma ResetIgnoresSourceConnection(
    svc: Services, input: SyncInput,
    otherSources: map<Uuid, SourceConnection>, otherInject: (Uuid, Uuid, Json) -> Json)
    requires input.jobId in svc.jobPersistence.jobs
    requires svc.jobPersistence.jobs[input.jobId].config.configType == ResetConnection
    ensures
      var svc' := svc.(
        configRepository := svc.configRepository.(sourceConnections := otherSources),
        oAuthConfigSupplier := svc.oAuthConfigSupplier.(injectSourceOAuthParameters := otherInject));
      SyncWorkflowInput(svc', input) == SyncWorkflowInput(svc, input)
  {
  }

  /**
   * The check-connection inputs: each check carries the connector's id, its role and
   * its OAuth-injected configuration; the launcher configs are built as for the sync.
   */
  lemma CheckConnectionJobInputs(
    svc: Services, input: SyncInputWithAttemptNumber, sync: JobSyncConfig, connectionId: Uuid,
    standardSync: StandardSync, source: SourceConnection, destination: DestinationConnection)
    requires input.jobId in svc.jobPersistence.jobs
    requires svc.jobPersistence.jobs[input.jobId].config.configType == Sync
    requires svc.jobPersistence.jobs[input.jobId].config.sync == Some(sync)
    requires svc.uuidFromString(svc.jobPersistence.jobs[input.jobId].scope) == Some(connectionId)
    requires connectionId in svc.configRepository.standardSyncs
    requires svc.configRepository.standardSyncs[connectionId] == standardSync
    requires standardSync.sourceId in svc.configRepository.sourceConnections
    requires svc.configRepository.sourceConnections[standardSync.sourceId] == source
    requires standardSync.destinationId in svc.configRepository.destinationConnections
    requires svc.configRepository.destinationConnections[standardSync.destinationId] == destination
    requires source.sourceDefinitionId in svc.configRepository.standardSourceDefinitions
    requires destination.destinationDefinitionId in svc.configRepository.standardDestinationDefinitions
    ensures
      var oauth := svc.oAuthConfigSupplier;
      var jobId, attemptId := LongToString(input.jobId), input.attemptNumber as Int64;
      CheckConnectionInputs(svc, input) == Success(SyncJobCheckConnectionInputs(
        IntegrationLauncherConfig(jobId, attemptId, sync.sourceDockerImage),
        IntegrationLauncherConfig(jobId, attemptId, sync.destinationDockerImage),
        StandardCheckConnectionInput(standardSync.sourceId, Source,
          oauth.injectSourceOAuthParameters(source.sourceDefinitionId, source.workspaceId, source.configuration)),
        StandardCheckConnectionInput(standardSync.destinationId, Destination,
          oauth.injectDestinationOAuthParameters(destination.destinationDefinitionId, destination.workspaceId, destination.configuration))))
  {
  }

  /** The check-connection path neither reads state nor the commit-state flag. */
  lemma CheckConnectionIgnoresState(
    svc: Services, input: SyncInputWithAttemptNumber, otherStates: StateApi, otherFlags: FeatureFlagClient)
    ensures CheckConnectionInputs(svc.(stateApi := otherStates, featureFlagClient := otherFlags), input)
         == CheckConnectionInputs(svc, input)
  {
  }

  /**
   * The sync and check paths of one sync job agree on the launcher configs whenever
   * both succeed for the same job and attempt.
   */
  lemma CheckAndSyncShareLauncherConfigs(svc: Services, jobId: Int64, attempt: Int32)
    requires SyncWorkflowInput(svc, SyncInput(attempt, jobId)).Success?
    requires CheckConnectionInputs(svc, SyncInputWithAttemptNumber(attempt, jobId)).Success?
    ensures
      var generated := SyncWorkflowInput(svc, SyncInput(attempt, jobId)).value.0;
      var checks := CheckConnectionInputs(svc, SyncInputWithAttemptNumber(attempt, jobId)).value;
      && checks.sourceLauncherConfig == generated.sourceLauncherConfig
      && checks.destinationLauncherConfig == generated.destinationLauncherConfig
  {
  }

  /** Attempts of distinct jobs get distinct run configs, so the job id text is a correlation key. */
  lemma DistinctJobsDistinctRunConfigs(svc: Services, a: SyncInput, b: SyncInput)
    requires SyncWorkflowInput(svc, a).Success? && SyncWorkflowInput(svc, b).Success?
    requires a.jobId != b.jobId
    ensures SyncWorkflowInput(svc, a).value.0.jobRunConfig != SyncWorkflowInput(svc, b).value.0.jobRunConfig
  {
  }
}
