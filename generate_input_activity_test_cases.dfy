/**
 * The activity's three test scenarios with their fixtures written out: job 1,
 * attempt 1, one connection, one source and one destination, and an injector
 * that adds an "oauth" field for exactly the expected arguments.
 */
module GenerateInputActivityTestCases {
  import opened Wrappers
  import opened JavaNumbers
  import opened JobModels
  import opened Collaborators
  import opened GenerateInputActivity

  const WorkspaceId := Uuid(0, 1)
  const SourceId := Uuid(0, 2)
  const DestinationDefinitionId := Uuid(0, 3)
  const DestinationId := Uuid(0, 4)
  const ConnectionId := Uuid(0, 5)
  const SourceDefinitionId := Uuid(0, 6)
  /** The job config's own workspace, distinct from the connectors' one. */
  const JobWorkspaceId := Uuid(0, 7)
  /** The text of `ConnectionId`, which is the job's scope. */
  const ConnectionIdText := "00000000-0000-0000-0000-000000000005"
  const JobId: Int64 := 1
  const AttemptId: Int32 := 1

  const SourceConfiguration := JsonObject([("source_key", JsonString("source_value"))])
  const SourceConfigWithOAuth :=
    JsonObject([("source_key", JsonString("source_value")), ("oauth", JsonString("oauth_value"))])
  const DestinationConfiguration := JsonObject([("destination_key", JsonString("destination_value"))])
  const DestinationConfigWithOAuth :=
    JsonObject([("destination_key", JsonString("destination_value")), ("oauth", JsonString("oauth_value"))])
  const ConnectionState := State(JsonObject([("state_key", JsonString("state_value"))]))
  const Catalog := ConfiguredAirbyteCatalog([])

  const TestSyncConfig := JobSyncConfig(JobWorkspaceId, "sourceDockerImage", "destinationDockerImage", Catalog)
  const TestResetConfig := JobResetConnectionConfig(JobWorkspaceId, "destinationDockerImage", Catalog)

  /**
   * The stubbed collaborators for a job with the given config and flag values.
   * An injector call with other arguments answers null, as an unstubbed mock does.
   */
  function TestServices(config: JobConfig, flags: map<Uuid, bool>): Services {
    Services(
      JobPersistence(map[JobId := Job(JobId, ConnectionIdText, config)]),
      ConfigRepository(
        map[ConnectionId := StandardSync(SourceId, DestinationId)],
        map[SourceId := SourceConnection(SourceId, WorkspaceId, SourceDefinitionId, SourceConfiguration)],
        map[DestinationId := DestinationConnection(DestinationId, WorkspaceId, DestinationDefinitionId, DestinationConfiguration)],
        map[SourceDefinitionId := StandardSourceDefinition(SourceDefinitionId)],
        map[DestinationDefinitionId := StandardDestinationDefinition(DestinationDefinitionId)],
        map[SourceId := StandardSourceDefinition(SourceDefinitionId)]),
      StateApi(map[ConnectionId := ConnectionState]),
      FeatureFlagClient(flags),
      OAuthConfigSupplier(
        (d: Uuid, w: Uuid, c: Json) =>
          if d == SourceDefinitionId && w == WorkspaceId && c == SourceConfiguration then SourceConfigWithOAuth else JsonNull,
        (d: Uuid, w: Uuid, c: Json) =>
          if d == DestinationDefinitionId && w == WorkspaceId && c == DestinationConfiguration then DestinationConfigWithOAuth else JsonNull),
      (s: string) => if s == ConnectionIdText then Some(ConnectionId) else None)
  }

  /** A sync job, with the commit-state flag on or off. */
  lemma TestGetSyncWorkflowInput(commitStateAsap: bool)
    ensures
      var svc := TestServices(JobConfig(Sync, Some(TestSyncConfig), None), map[ConnectionId := commitStateAsap]);
      SyncWorkflowInput(svc, SyncInput(AttemptId, JobId)) == Success((
        GeneratedJobInput(
          JobRunConfig("1", 1),
          IntegrationLauncherConfig("1", 1, "sourceDockerImage"),
          IntegrationLauncherConfig("1", 1, "destinationDockerImage"),
          StandardSyncInput(JobWorkspaceId, SourceId, DestinationId, SourceConfigWithOAuth, DestinationConfigWithOAuth,
            Some(ConnectionState), Catalog, commitStateAsap)),
        SaveAttemptSyncConfigRequestBody(JobId, AttemptId, ConnectionId,
          AttemptSyncConfig(SourceConfigWithOAuth, DestinationConfigWithOAuth, Some(ConnectionState)))))
  {
  }

  /** A reset job, with no flag set (so the flag's default, false, is returned). */
  lemma TestGetResetSyncWorkflowInput()
    ensures
      var svc := TestServices(JobConfig(ResetConnection, None, Some(TestResetConfig)), map[]);
      SyncWorkflowInput(svc, SyncInput(AttemptId, JobId)) == Success((
        GeneratedJobInput(
          JobRunConfig("1", 1),
          IntegrationLauncherConfig("1", 1, ResetJobSourceDockerImageStub),
          IntegrationLauncherConfig("1", 1, "destinationDockerImage"),
          StandardSyncInput(JobWorkspaceId, SourceId, DestinationId, EmptyObject, DestinationConfigWithOAuth,
            Some(ConnectionState), Catalog, false)),
        SaveAttemptSyncConfigRequestBody(JobId, AttemptId, ConnectionId,
          AttemptSyncConfig(EmptyObject, DestinationConfigWithOAuth, Some(ConnectionState)))))
  {
  }

  /** The check inputs of a sync job. */
  lemma TestGetCheckConnectionInputs()
    ensures
      var svc := TestServices(JobConfig(Sync, Some(TestSyncConfig), None), map[]);
      CheckConnectionInputs(svc, SyncInputWithAttemptNumber(AttemptId, JobId)) == Success(SyncJobCheckConnectionInputs(
        IntegrationLauncherConfig("1", 1, "sourceDockerImage"),
        IntegrationLauncherConfig("1", 1, "destinationDockerImage"),
        StandardCheckConnectionInput(SourceId, Source, SourceConfigWithOAuth),
        StandardCheckConnectionInput(DestinationId, Destination, DestinationConfigWithOAuth)))
  {
  }

  /** Running the activity object on the sync scenario saves one request, for job 1 attempt 1. */
  method TestActivitySavesOnce(commitStateAsap: bool)
  {
    var svc := TestServices(JobConfig(Sync, Some(TestSyncConfig), None), map[ConnectionId := commitStateAsap]);
    var activity := new GenerateInputActivityImpl(svc);
    TestGetSyncWorkflowInput(commitStateAsap);
    var checks := activity.GetCheckConnectionInputs(SyncInputWithAttemptNumber(AttemptId, JobId));
    assert activity.savedSyncConfigs == [];
    var generated := activity.GetSyncWorkflowInput(SyncInput(AttemptId, JobId));
    assert generated.Success?;
    assert activity.savedSyncConfigs == [SaveAttemptSyncConfigRequestBody(JobId, AttemptId, ConnectionId,
      AttemptSyncConfig(SourceConfigWithOAuth, DestinationConfigWithOAuth, Some(ConnectionState)))];
  }
}
