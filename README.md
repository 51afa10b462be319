# gcloud versions operations and the gcloud runner, modelled in Dafny

This project models the part of the App Engine Java tooling library that turns a
`gcloud app versions` request into a gcloud command line and hands it to a process.

* `GcloudRunner` (module `Runner`, class `GcloudRunner`) validates the Cloud SDK and
  builds the command. The command is the gcloud path, then the caller's arguments, then the
  runner-wide flags in a fixed order: format, verbosity, credential-file-override, and one
  flags-file group per configured file, kept in list order. The runner also builds the
  environment overlay (gsutil switch, metrics environment and version, structured logs,
  the Windows upload-concurrency workaround, prompts disabled). It then launches the process
  and passes it to the process handler.
* `Versions` (module `AppVersions`, class `Versions`) implements `start`, `stop`,
  `delete` and `list`. Each checks its configuration and builds
  `app versions <operation> …`. It then calls the runner with no working directory and wraps
  process and I/O failures in the library's operation failure.

The rendering of one flag into tokens (`GcloudArgs.get`) lives in a class outside this model (`GcloudArgs`).
Every operation therefore takes it as a parameter, `render: FlagRenderer`. Properties hold
for every renderer, and examples state the few renderings they rely on as preconditions.
The outside world is also passed in: a `Host` value gives the `os.name` property, the
outcome of SDK validation and the outcome of starting and handling the process. `Run`
returns the launch request it would submit (command, working directory, environment overlay)
together with its outcome.

Modules: `Wrappers` (Option and Outcome), `Flags` (flag values, flag groups and
appending their tokens), `Runner`, `AppVersions`.

## Model

| member | source | states |
|---|---|---|
| Runner.GcloudRunner.constructor | src/main/java/com/google/cloud/tools/appengine/operations/GcloudRunner.java:52-73 | every configuration field keeps the value it was given |
| Runner.GcloudRunner.Run | src/main/java/com/google/cloud/tools/appengine/operations/GcloudRunner.java:80-118 | a failed SDK validation launches nothing and reports that failure; otherwise it launches exactly the gcloud path, the arguments and the runner-wide flags in fixed order, in the given working directory, with the command environment; a start or handler failure is reported as such |
| Runner.GcloudRunner.AppendOptionalFlags | src/main/java/com/google/cloud/tools/appengine/operations/GcloudRunner.java:90-100 | the command afterwards is the given one followed by the format, verbosity and credential-file-override groups, each present exactly when configured, in that order |
| Runner.GcloudRunner.AppendFileFlags | src/main/java/com/google/cloud/tools/appengine/operations/GcloudRunner.java:102-106 | the command afterwards is the given one followed by one flags-file group per configured file, in list order; none when no list is configured |
| Runner.GcloudRunner.CommandEnvironment | src/main/java/com/google/cloud/tools/appengine/operations/GcloudRunner.java:120-145 | the overlay holds only the six known keys; each is bound exactly when its condition holds, to its configured value; prompts are always disabled |
| Runner.GcloudRunner.EnvironmentDetermined | src/main/java/com/google/cloud/tools/appengine/operations/GcloudRunner.java:121-145 | two overlays that both meet the environment description for the same OS name are equal, so the description fixes the overlay |
| Runner.ContainsIff | src/main/java/com/google/cloud/tools/appengine/operations/GcloudRunner.java:138 | the substring test used for the Windows check holds exactly when the text occurs at some position |
| Runner.GcloudRunner.CommandStartsWithArguments | src/main/java/com/google/cloud/tools/appengine/operations/GcloudRunner.java:86-89 | the command starts with the gcloud path, then the caller's arguments unchanged, and every later token comes from the runner-wide flags |
| Runner.GcloudRunner.OptionalFlagsAppended | src/main/java/com/google/cloud/tools/appengine/operations/GcloudRunner.java:90-100 | the three conditional appends of format, verbosity and credential file leave the same command as appending the present groups in that order |
| Runner.GcloudRunner.GlobalFlagsInFixedOrder | src/main/java/com/google/cloud/tools/appengine/operations/GcloudRunner.java:90-106 | format comes before verbosity, verbosity before credential-file-override, and that before every flags-file group |
| Runner.GcloudRunner.GlobalFlagsLookup | src/main/java/com/google/cloud/tools/appengine/operations/GcloudRunner.java:90-106 | looking up any flag name among the runner-wide flags gives that name's configured values, or nothing for any other name |
| Runner.GcloudRunner.GlobalFlagValues | src/main/java/com/google/cloud/tools/appengine/operations/GcloudRunner.java:90-106 | format, verbosity and credential-file-override each appear once when configured and not at all otherwise; flags-file appears once per file, in list order |
| Runner.GcloudRunner.TwoFlagsFilesExample | src/main/java/com/google/cloud/tools/appengine/operations/GcloudRunner.java:102-106 | with files /a.yaml and /b.yaml and no other flag, the command ends with one flags-file group for each, in that order |
| Runner.FileFlagsStep | src/main/java/com/google/cloud/tools/appengine/operations/GcloudRunner.java:103-105 | one pass of the flags-file loop appends exactly that file's group |
| Runner.FileFlagsValues | src/main/java/com/google/cloud/tools/appengine/operations/GcloudRunner.java:102-106 | the flags-file groups hold every file in list order and no other flag name |
| Flags.AppendOptionalFlag | src/main/java/com/google/cloud/tools/appengine/operations/GcloudRunner.java:90-100 | appending an optional flag adds its rendered tokens when the value is present and leaves the command unchanged when it is absent |
| Flags.OptionalFlagValues | src/main/java/com/google/cloud/tools/appengine/operations/GcloudRunner.java:90-100 | an optional flag contributes its value under its own name when present, and nothing otherwise |
| Flags.AppendFlagsConcat | src/main/java/com/google/cloud/tools/appengine/operations/GcloudRunner.java:89-106 | appending two lists of flag groups one after the other is the same as appending their concatenation |
| Flags.AppendFlagsSplit | src/main/java/com/google/cloud/tools/appengine/operations/GcloudRunner.java:89-106 | appending flag groups to a command leaves the command as a prefix, followed by the groups' tokens alone |
| Flags.ValuesOfAppend | src/main/java/com/google/cloud/tools/appengine/operations/GcloudRunner.java:89-106 | the values for a flag name in concatenated groups are the first list's values followed by the second's |
| AppVersions.Versions.constructor | src/main/java/com/google/cloud/tools/appengine/operations/Versions.java:36-38 | the operations use the given runner |
| AppVersions.Versions.Execute | src/main/java/com/google/cloud/tools/appengine/operations/Versions.java:40-46 | runs the arguments with no working directory; SDK failures pass through, while start and handler failures are wrapped as the operation failure |
| AppVersions.Versions.Start | src/main/java/com/google/cloud/tools/appengine/operations/Versions.java:54-66 | a null configuration or identifier list fails as a null argument, an empty list as an illegal argument, and neither launches anything; otherwise it executes `app versions start` with the identifiers and the service and project flags |
| AppVersions.Versions.Stop | src/main/java/com/google/cloud/tools/appengine/operations/Versions.java:74-86 | the same checks as start, then executes `app versions stop` with the identifiers and the service and project flags |
| AppVersions.Versions.Delete | src/main/java/com/google/cloud/tools/appengine/operations/Versions.java:94-106 | the same checks as start, then executes `app versions delete` with the identifiers and the service and project flags |
| AppVersions.Versions.List | src/main/java/com/google/cloud/tools/appengine/operations/Versions.java:114-126 | a null configuration fails as a null argument without a launch; otherwise it executes `app versions list` with the service, hide-no-traffic and project flags |
| AppVersions.Versions.CommonVersionSelectionArgs | src/main/java/com/google/cloud/tools/appengine/operations/Versions.java:128-136 | the identifiers come first, unchanged and in order, then the service flag, then the project flag |
| AppVersions.SelectionArgumentsLayout | src/main/java/com/google/cloud/tools/appengine/operations/Versions.java:59-63 | a selection's arguments split exactly into `app versions <verb>`, the identifiers, the service tokens and the project tokens |
| AppVersions.SelectionsDifferOnlyInVerb | src/main/java/com/google/cloud/tools/appengine/operations/Versions.java:59-103 | start, stop and delete build arguments of equal length that differ only in the third token |
| AppVersions.SelectionArgumentsInjective | src/main/java/com/google/cloud/tools/appengine/operations/Versions.java:59-63 | with the same service and project, the arguments determine the operation and the identifier list |
| AppVersions.ListArgumentsLayout | src/main/java/com/google/cloud/tools/appengine/operations/Versions.java:117-123 | list's arguments split exactly into `app versions list`, the service tokens, the hide-no-traffic tokens and the project tokens |
| AppVersions.StartTwoVersionsExample | src/main/java/com/google/cloud/tools/appengine/operations/Versions.java:59-63 | starting v1 and v2 without service or project gives `app versions start v1 v2` |
| AppVersions.ListDefaultServiceExample | src/main/java/com/google/cloud/tools/appengine/operations/Versions.java:117-123 | listing service default with hide-no-traffic true and no project gives `app versions list --service default --hide-no-traffic true` |

## Left out

- `GcloudArgs.get` (how a flag name and value become tokens, including an absent value) is not part of this model; it is the `render` parameter.
- `CloudSdk`: validating the SDK and locating the gcloud binary are not part of this model. The validation outcome comes from `Host.sdk`, and the absolute gcloud path is the runner's `gcloudPath`.
- Starting the process and the `ProcessHandler` are reduced to the `Host.process` outcome. `Run` returns the launch request instead of starting anything.
- The environment overlay is modelled as the map that is merged into the process environment. The inherited environment and the `putAll` merge are left out.
- `System.getProperty("os.name")` is the `Host.osName` parameter.
- The info log line of the submitted command is left out because it has no effect on the result.
- `GcloudRunner.Factory` only wires real collaborators together and is left out.
- Java exceptions become error values. The three SDK exceptions are `SdkError` cases, and process-handler and I/O exceptions are `RunError` cases. The exception class hierarchy is not modelled.
- `list` emits service, then hide-no-traffic, then project, following `Versions.java`.
- Paths are plain strings. `toAbsolutePath` and `toFile` conversions are not modelled.
