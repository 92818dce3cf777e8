# Job-input assembly activity of the Airbyte workers

This project models `GenerateInputActivityImpl`, the Temporal activity that turns a
`(jobId, attemptId)` pair into everything an attempt needs before it runs:

- **`getSyncWorkflowInput`** loads the job, reads the connection id from the job's scope,
  looks up the connection's source and destination, branches on the job's config type
  (`SYNC` or `RESET_CONNECTION`), injects OAuth parameters into the connector
  configurations, reads the connection's state and the `CommitStatesAsap` flag, and returns a
  `GeneratedJobInput` (a `JobRunConfig`, two `IntegrationLauncherConfig`s and a
  `StandardSyncInput`). Before returning it saves the attempt's configuration once through
  `AttemptApi.saveSyncConfig`.
- **`getCheckConnectionInputs`** builds, for a sync job, one `StandardCheckConnectionInput`
  per connector and the two launcher configs.

The implementation class itself is not part of this model; its behaviour is the one its unit test
(`GenerateInputActivityTest.java`) fixes, generalised to every value the collaborators can return.

Layout:

- `wrappers.dfy`: `Option` and `Result`.
- `java_numbers.dfy`: `int`/`long` ranges, `String.valueOf(long)` (`LongToString`) and its
  reading back `Long.parseLong` (`ParseLong`), with the round trip proved.
- `job_models.dfy`: the records (job, tagged job config, connectors, generated inputs, the save
  request) and the errors.
- `collaborators.dfy`: the job store, the config repository, the state API, the feature-flag
  client, the OAuth injector and `UUID.fromString`, as tables and functions bundled in `Services`.
- `generate_input_activity.dfy`: the two operations as functions over `Services`, and the
  activity class, whose `savedSyncConfigs` field records every `saveSyncConfig` request.
- `generate_input_properties.dfy`: the test's expectations stated for all collaborator values.
- `generate_input_activity_test_cases.dfy`: the three test scenarios with their fixtures.

External services are inputs: job records, connections, definitions and states are maps; the
OAuth injector and the UUID parser are functions; a missing record is an `Error`.

## Model

| member | source | states |
|---|---|---|
| JavaNumbers.NatToDecimal | airbyte-workers/src/test/java/io/airbyte/workers/temporal/scheduling/activities/GenerateInputActivityTest.java:174 | the digits of a natural number are non-empty, all decimal digits, and begin with `0` only for zero |
| JavaNumbers.LongToString | airbyte-workers/src/test/java/io/airbyte/workers/temporal/scheduling/activities/GenerateInputActivityTest.java:173-175 | `String.valueOf(long)` starts with `-` exactly for negative values and is digits otherwise |
| JavaNumbers.NatToDecimalValue | airbyte-workers/src/test/java/io/airbyte/workers/temporal/scheduling/activities/GenerateInputActivityTest.java:174 | the digits produced for `n` denote `n` |
| JavaNumbers.LongToStringRoundTrip | airbyte-workers/src/test/java/io/airbyte/workers/temporal/scheduling/activities/GenerateInputActivityTest.java:173-185 | parsing the decimal text of a job id gives that job id back |
| JavaNumbers.LongToStringInjective | airbyte-workers/src/test/java/io/airbyte/workers/temporal/scheduling/activities/GenerateInputActivityTest.java:173-175 | distinct job ids have distinct decimal texts |
| GenerateInputActivity.NewJobRunConfig | airbyte-workers/src/test/java/io/airbyte/workers/temporal/scheduling/activities/GenerateInputActivityTest.java:173-175 | the run config's job id reads back as the job id and its attempt id is the attempt number widened to `long` |
| GenerateInputActivity.NewLauncherConfig | airbyte-workers/src/test/java/io/airbyte/workers/temporal/scheduling/activities/GenerateInputActivityTest.java:177-185 | a launcher config carries the job id text, the widened attempt number and the given image |
| GenerateInputActivity.SyncWorkflowInput | airbyte-workers/src/test/java/io/airbyte/workers/temporal/scheduling/activities/GenerateInputActivityTest.java:162-207 | succeeds exactly when every record it looks up exists; a missing job is `JobNotFound`; on success the attempt identity is consistent across the three configs, the save is keyed by (jobId, attemptId) and holds exactly the returned configurations and state, state and `commitStateAsap` are those of the connection parsed from the scope, and a reset has the empty source configuration and the stub source image |
| GenerateInputActivity.CheckConnectionInputs | airbyte-workers/src/test/java/io/airbyte/workers/temporal/scheduling/activities/GenerateInputActivityTest.java:307-334 | succeeds exactly when the job is a sync job and every record it looks up exists; the checks are typed SOURCE and DESTINATION and both launcher configs carry the job id text and attempt number |
| GenerateInputActivity.GenerateInputActivityImpl.constructor | airbyte-workers/src/test/java/io/airbyte/workers/temporal/scheduling/activities/GenerateInputActivityTest.java:104-105 | a new activity has saved nothing |
| GenerateInputActivity.GenerateInputActivityImpl.SaveSyncConfig | airbyte-workers/src/test/java/io/airbyte/workers/temporal/scheduling/activities/GenerateInputActivityTest.java:204-207 | a save appends its request to the record of saves |
| GenerateInputActivity.GenerateInputActivityImpl.GetSyncWorkflowInput | airbyte-workers/src/test/java/io/airbyte/workers/temporal/scheduling/activities/GenerateInputActivityTest.java:193-207 | returns the generated input; on success exactly one request is appended, the one that `SyncWorkflowInput` pairs with the input; on failure nothing is saved |
| GenerateInputActivity.GenerateInputActivityImpl.GetCheckConnectionInputs | airbyte-workers/src/test/java/io/airbyte/workers/temporal/scheduling/activities/GenerateInputActivityTest.java:333-334 | returns the check inputs and, having no write frame, saves nothing |
| GenerateInputProperties.SyncJobInput | airbyte-workers/src/test/java/io/airbyte/workers/temporal/scheduling/activities/GenerateInputActivityTest.java:162-202 | for a sync job the result is the expected input field by field: OAuth-injected configurations from each connector's own definition id, workspace id and raw configuration; workspace, catalog and images from the job's sync config; the connection's state and flag; and a save of the same configurations and state |
| GenerateInputProperties.ResetJobInput | airbyte-workers/src/test/java/io/airbyte/workers/temporal/scheduling/activities/GenerateInputActivityTest.java:233-276 | for a reset job the source configuration is the empty object, the source image is the stub, the destination configuration is OAuth-injected and workspace, catalog and destination image come from the reset config; the save holds the same values |
| GenerateInputProperties.ResetIgnoresSourceConnection | airbyte-workers/src/test/java/io/airbyte/workers/temporal/scheduling/activities/GenerateInputActivityTest.java:211-231 | a reset's input and save do not depend on the source connections or on the source OAuth injector |
| GenerateInputProperties.CheckConnectionJobInputs | airbyte-workers/src/test/java/io/airbyte/workers/temporal/scheduling/activities/GenerateInputActivityTest.java:307-334 | the check inputs are (source id, SOURCE, injected source configuration) and (destination id, DESTINATION, injected destination configuration) with the sync job's launcher configs |
| GenerateInputProperties.CheckConnectionIgnoresState | airbyte-workers/src/test/java/io/airbyte/workers/temporal/scheduling/activities/GenerateInputActivityTest.java:280-334 | the check inputs do not depend on the state API or the commit-state flag |
| GenerateInputProperties.CheckAndSyncShareLauncherConfigs | airbyte-workers/src/test/java/io/airbyte/workers/temporal/scheduling/activities/GenerateInputActivityTest.java:307-315 | for the same job and attempt, the check path builds the same launcher configs as the sync path |
| GenerateInputProperties.DistinctJobsDistinctRunConfigs | airbyte-workers/src/test/java/io/airbyte/workers/temporal/scheduling/activities/GenerateInputActivityTest.java:173-175 | attempts of distinct jobs get distinct run configs |
| GenerateInputActivityTestCases.TestGetSyncWorkflowInput | airbyte-workers/src/test/java/io/airbyte/workers/temporal/scheduling/activities/GenerateInputActivityTest.java:127-208 | with the fixtures, job 1 attempt 1 of a sync job yields the expected input for the flag on and off, and the expected save |
| GenerateInputActivityTestCases.TestGetResetSyncWorkflowInput | airbyte-workers/src/test/java/io/airbyte/workers/temporal/scheduling/activities/GenerateInputActivityTest.java:210-277 | with the fixtures, a reset job yields the empty source configuration, the stub image and the expected save |
| GenerateInputActivityTestCases.TestGetCheckConnectionInputs | airbyte-workers/src/test/java/io/airbyte/workers/temporal/scheduling/activities/GenerateInputActivityTest.java:279-335 | with the fixtures, the check inputs are the expected ones |

The reset path still looks up the source definition by source id (the test stubs
`getSourceDefinitionFromSource` for the reset job, line 214), although it never reads the source
connection; the model keeps that lookup.

## Left out

- `GenerateInputActivityImpl.java` is not part of this model: the lookup order, and so which error a job with several missing records reports, follows the order of the algorithm (job, scope, connection, type branch, source definition, destination, destination definition); only the missing job is pinned to its error.
- `WorkerConstants.java` is not part of this model; `ResetJobSourceDockerImageStub` holds the value of `RESET_JOB_SOURCE_DOCKER_IMAGE_STUB` there.
- UUID text parsing and printing: `UUID.fromString` is a function given with the services; a scope it rejects is `InvalidScope`.
- The conversion of the state API's `ConnectionState` (legacy, stream, global, not set) into a `State`: the state API is modelled as the resulting state per connection, absent meaning no state yet.
- `ApiPojoConverters.attemptSyncConfigToClient`: the saved request keeps the model's `AttemptSyncConfig` and the connection id instead of the wire form.
- Fields of `JobSyncConfig`, `StandardSyncInput` and `IntegrationLauncherConfig` the test does not fix (namespace settings, operations, resource requirements, protocol versions, connection id), and a reset's own source configuration: a reset's source configuration is always the empty object.
- The contents of source and destination definitions: they are looked up and must exist, nothing else.
- The legacy `FeatureFlags` object the activity is constructed with: it plays no part in the outputs.
- Exceptions: each failure is an `Error` value; the wrapping of every failure into a retryable exception, retries and the server-side upsert of saved attempt configurations are left to the workflow engine and the attempt API.
- JavaNumbers.ParseLong: accepts ASCII digits only, where `Long.parseLong` also accepts other Unicode digits.
- `JobsApiController`, `SourceDefinitionSpecificationApiController`, `OpenapiApiController`, `HealthApiController`: HTTP routing that delegates to handlers outside this model.
- `useFreeConnectorProgram.ts`: web UI state and network polling, outside the job-input assembly.
