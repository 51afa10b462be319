/** The `gcloud app versions` operations: start, stop and delete a selection of versions,
    and list versions. Each checks its configuration, builds the argument list
    `app versions <operation> …` and hands it to the runner, with no working directory. */
module AppVersions {
  import opened Wrappers
  import opened Flags
  import opened Runner

  /** The versions to start, stop or delete, with an optional service and project.
      The list of identifiers itself may be absent (null). */
  datatype SelectionConfiguration =
    SelectionConfiguration(versions: Option<seq<string>>, service: Option<string>,
                           projectId: Option<string>)

  /** What to list: an optional service, an optional "hide versions without traffic"
      switch and an optional project. */
  datatype ListConfiguration =
    ListConfiguration(service: Option<string>, hideNoTraffic: Option<bool>,
                      projectId: Option<string>)

  /** The failures an operation lets escape: a null configuration or identifier list, an
      empty identifier list, a Cloud SDK validation failure, or a process failure wrapped
      in the library's single operation-failure error. */
  datatype OperationError =
    | NullArgument
    | IllegalArgument
    | SdkFailed(error: SdkError)
    | AppEngineFailure(cause: RunError)

  /** The operations on a selection of versions. */
  datatype Selection = Start | Stop | Delete

  /** The subcommand token of a selection operation. */
  function Verb(op: Selection): string
  {
    match op
    case Start => "start"
    case Stop => "stop"
    case Delete => "delete"
  }

  const SERVICE := "service"
  const PROJECT := "project"
  const HIDE_NO_TRAFFIC := "hide-no-traffic"

  /** A selection configuration the operations accept: present, with a present and
      non-empty list of identifiers. */
  predicate ValidSelection(configuration: Option<SelectionConfiguration>)
  {
    && configuration.Some?
    && configuration.value.versions.Some?
    && |configuration.value.versions.value| > 0
  }

  /** The arguments shared by the selection operations: the identifiers, then the service
      flag, then the project flag. */
  function CommonSelectionArguments(configuration: SelectionConfiguration, render: FlagRenderer)
    : seq<string>
    requires configuration.versions.Some?
  {
    configuration.versions.value
    + render(SERVICE, TextArg(configuration.service))
    + render(PROJECT, TextArg(configuration.projectId))
  }

  /** The arguments of a selection operation. */
  function SelectionArguments(op: Selection, configuration: SelectionConfiguration,
                              render: FlagRenderer): seq<string>
    requires configuration.versions.Some?
  {
    ["app", "versions", Verb(op)] + CommonSelectionArguments(configuration, render)
  }

  /** The arguments of the list operation: no identifiers, then the service,
      hide-no-traffic and project flags, in that order. */
  function ListArguments(configuration: ListConfiguration, render: FlagRenderer): seq<string>
  {
    ["app", "versions", "list"]
    + render(SERVICE, TextArg(configuration.service))
    + render(HIDE_NO_TRAFFIC, SwitchArg(configuration.hideNoTraffic))
    + render(PROJECT, TextArg(configuration.projectId))
  }

  /** How an operation reports what the runner raised: SDK validation failures pass
      through, process failures are wrapped. */
  function Wrapped(outcome: Outcome<RunError>): Outcome<OperationError>
  {
    match outcome
    case Pass => Pass
    case Fail(SdkFailure(error)) => Fail(SdkFailed(error))
    case Fail(cause) => Fail(AppEngineFailure(cause))
  }

  class Versions {
    const runner: GcloudRunner

    constructor (runner: GcloudRunner)
      ensures this.runner == runner
    {
      this.runner := runner;
    }

    /** What handing `arguments` to the runner leaves: a launch exactly when the SDK is
        valid, in the inherited working directory, and the runner's failure as an
        operation failure. */
    ghost predicate Executed(arguments: seq<string>, host: Host, render: FlagRenderer,
                             request: Option<Launch>, outcome: Outcome<OperationError>)
    {
      && (request.Some? <==> host.sdk == SdkValid)
      && (request.Some? ==> runner.Launched(request.value, arguments, None, host.osName, render))
      && outcome == Wrapped(RunOutcome(host))
    }

    /** Runs gcloud with `arguments` in the current working directory. */
    method Execute(arguments: seq<string>, host: Host, render: FlagRenderer)
      returns (request: Option<Launch>, outcome: Outcome<OperationError>)
      ensures Executed(arguments, host, render, request, outcome)
      ensures outcome.Fail? ==>
                outcome.error.SdkFailed? || outcome.error.AppEngineFailure?
      ensures outcome.Fail? && outcome.error.AppEngineFailure? ==>
                outcome.error.cause == ProcessHandlerFailure || outcome.error.cause == IoFailure
    {
      var result;
      request, result := runner.Run(arguments, None, host, render);
      match result
      case Pass => outcome := Pass;
      case Fail(SdkFailure(error)) => outcome := Fail(SdkFailed(error));
      case Fail(cause) => outcome := Fail(AppEngineFailure(cause));
    }

    /** Starts serving the selected versions. */
    method Start(configuration: Option<SelectionConfiguration>, host: Host, render: FlagRenderer)
      returns (request: Option<Launch>, outcome: Outcome<OperationError>)
      ensures (configuration.None? || configuration.value.versions.None?) ==>
                request.None? && outcome == Fail(NullArgument)
      ensures configuration.Some? && configuration.value.versions == Some([]) ==>
                request.None? && outcome == Fail(IllegalArgument)
      ensures ValidSelection(configuration) ==>
                Executed(SelectionArguments(Selection.Start, configuration.value, render), host, render,
                         request, outcome)
    {
      if configuration.None? || configuration.value.versions.None? {
        return None, Fail(NullArgument);
      }
      if |configuration.value.versions.value| == 0 {
        return None, Fail(IllegalArgument);
      }
      var arguments: seq<string> := [];
      arguments := arguments + ["app"];
      arguments := arguments + ["versions"];
      arguments := arguments + ["start"];
      var common := CommonVersionSelectionArgs(configuration.value, render);
      arguments := arguments + common;
      assert arguments == SelectionArguments(Selection.Start, configuration.value, render);
      request, outcome := Execute(arguments, host, render);
    }

    /** Stops serving the selected versions. */
    method Stop(configuration: Option<SelectionConfiguration>, host: Host, render: FlagRenderer)
      returns (request: Option<Launch>, outcome: Outcome<OperationError>)
      ensures (configuration.None? || configuration.value.versions.None?) ==>
                request.None? && outcome == Fail(NullArgument)
      ensures configuration.Some? && configuration.value.versions == Some([]) ==>
                request.None? && outcome == Fail(IllegalArgument)
      ensures ValidSelection(configuration) ==>
                Executed(SelectionArguments(Selection.Stop, configuration.value, render), host, render,
                         request, outcome)
    {
      if configuration.None? || configuration.value.versions.None? {
        return None, Fail(NullArgument);
      }
      if |configuration.value.versions.value| == 0 {
        return None, Fail(IllegalArgument);
      }
      var arguments: seq<string> := [];
      arguments := arguments + ["app"];
      arguments := arguments + ["versions"];
      arguments := arguments + ["stop"];
      var common := CommonVersionSelectionArgs(configuration.value, render);
      arguments := arguments + common;
      assert arguments == SelectionArguments(Selection.Stop, configuration.value, render);
      request, outcome := Execute(arguments, host, render);
    }

    /** Deletes the selected versions. */
    method Delete(configuration: Option<SelectionConfiguration>, host: Host, render: FlagRenderer)
      returns (request: Option<Launch>, outcome: Outcome<OperationError>)
      ensures (configuration.None? || configuration.value.versions.None?) ==>
                request.None? && outcome == Fail(NullArgument)
      ensures configuration.Some? && configuration.value.versions == Some([]) ==>
                request.None? && outcome == Fail(IllegalArgument)
      ensures ValidSelection(configuration) ==>
                Executed(SelectionArguments(Selection.Delete, configuration.value, render), host, render,
                         request, outcome)
    {
      if configuration.None? || configuration.value.versions.None? {
        return None, Fail(NullArgument);
      }
      if |configuration.value.versions.value| == 0 {
        return None, Fail(IllegalArgument);
      }
      var arguments: seq<string> := [];
      arguments := arguments + ["app"];
      arguments := arguments + ["versions"];
      arguments := arguments + ["delete"];
      var common := CommonVersionSelectionArgs(configuration.value, render);
      arguments := arguments + common;
      assert arguments == SelectionArguments(Selection.Delete, configuration.value, render);
      request, outcome := Execute(arguments, host, render);
    }

    /** Lists versions; only the configuration itself must be present. */
    method List(configuration: Option<ListConfiguration>, host: Host, render: FlagRenderer)
      returns (request: Option<Launch>, outcome: Outcome<OperationError>)
      ensures configuration.None? ==> request.None? && outcome == Fail(NullArgument)
      ensures configuration.Some? ==>
                Executed(ListArguments(configuration.value, render), host, render,
                         request, outcome)
    {
      if configuration.None? {
        return None, Fail(NullArgument);
      }
      var arguments: seq<string> := [];
      arguments := arguments + ["app"];
      arguments := arguments + ["versions"];
      arguments := arguments + ["list"];
      arguments := arguments + render(SERVICE, TextArg(configuration.value.service));
      arguments := arguments + render(HIDE_NO_TRAFFIC, SwitchArg(configuration.value.hideNoTraffic));
      arguments := arguments + render(PROJECT, TextArg(configuration.value.projectId));
      assert arguments == ListArguments(configuration.value, render);
      request, outcome := Execute(arguments, host, render);
    }

    /** The identifiers, unchanged and in order, then the service and project flags. */
    static method CommonVersionSelectionArgs(configuration: SelectionConfiguration,
                                             render: FlagRenderer)
      returns (arguments: seq<string>)
      requires configuration.versions.Some?
      ensures arguments == CommonSelectionArguments(configuration, render)
    {
      arguments := [];
      arguments := arguments + configuration.versions.value;
      arguments := arguments + render(SERVICE, TextArg(configuration.service));
      arguments := arguments + render(PROJECT, TextArg(configuration.projectId));
    }
  }

  /** A selection operation's arguments are `app versions <verb>`, then the identifiers
      unchanged and in order, then the service flag's tokens, then the project flag's
      tokens, and nothing after them. */
  lemma SelectionArgumentsLayout(op: Selection, configuration: SelectionConfiguration,
                                 render: FlagRenderer)
    requires configuration.versions.Some?
    ensures var args := SelectionArguments(op, configuration, render);
            var n := |configuration.versions.value|;
            var service := render(SERVICE, TextArg(configuration.service));
            var project := render(PROJECT, TextArg(configuration.projectId));
            && |args| == 3 + n + |service| + |project|
            && args[..3] == ["app", "versions", Verb(op)]
            && args[3..3 + n] == configuration.versions.value
            && args[3 + n..3 + n + |service|] == service
            && args[3 + n + |service|..] == project
  {
  }

  /** Start, stop and delete build the same arguments but for the third token. */
  lemma SelectionsDifferOnlyInVerb(op1: Selection, op2: Selection,
                                   configuration: SelectionConfiguration, render: FlagRenderer)
    requires configuration.versions.Some?
    ensures var a1 := SelectionArguments(op1, configuration, render);
            var a2 := SelectionArguments(op2, configuration, render);
            && |a1| == |a2|
            && a1[2] == Verb(op1) && a2[2] == Verb(op2)
            && (forall i | 0 <= i < |a1| && i != 2 :: a1[i] == a2[i])
  {
  }

  /** With the same service and project, the arguments of a selection operation determine
      the operation and the identifiers. */
  lemma SelectionArgumentsInjective(op1: Selection, c1: SelectionConfiguration,
                                    op2: Selection, c2: SelectionConfiguration,
                                    render: FlagRenderer)
    requires c1.versions.Some? && c2.versions.Some?
    requires c1.service == c2.service && c1.projectId == c2.projectId
    requires SelectionArguments(op1, c1, render) == SelectionArguments(op2, c2, render)
    ensures op1 == op2
    ensures c1 == c2
  {
    SelectionArgumentsLayout(op1, c1, render);
    SelectionArgumentsLayout(op2, c2, render);
    var a := SelectionArguments(op1, c1, render);
    assert Verb(op1) == a[2] == Verb(op2);
    assert |c1.versions.value| == |c2.versions.value|;
    assert c1.versions.value == a[3..3 + |c1.versions.value|] == c2.versions.value;
  }

  /** The list operation's arguments are `app versions list`, then the service,
      hide-no-traffic and project flags' tokens, in that order, and nothing else. */
  lemma ListArgumentsLayout(configuration: ListConfiguration, render: FlagRenderer)
    ensures var args := ListArguments(configuration, render);
            var service := render(SERVICE, TextArg(configuration.service));
            var noTraffic := render(HIDE_NO_TRAFFIC, SwitchArg(configuration.hideNoTraffic));
            var project := render(PROJECT, TextArg(configuration.projectId));
            && |args| == 3 + |service| + |noTraffic| + |project|
            && args[..3] == ["app", "versions", "list"]
            && args[3..3 + |service|] == service
            && args[3 + |service|..3 + |service| + |noTraffic|] == noTraffic
            && args[3 + |service| + |noTraffic|..] == project
  {
  }

  /** Starting versions v1 and v2 with neither service nor project gives exactly
      `app versions start v1 v2`, for any renderer that renders an absent value as
      nothing. */
  lemma StartTwoVersionsExample(render: FlagRenderer)
    requires render(SERVICE, None) == [] && render(PROJECT, None) == []
    ensures SelectionArguments(Start, SelectionConfiguration(Some(["v1", "v2"]), None, None), render)
            == ["app", "versions", "start", "v1", "v2"]
  {
  }

  /** Listing the default service with versions without traffic hidden and no project
      gives `app versions list --service default --hide-no-traffic true`, for a renderer
      that renders these two flags so and an absent project as nothing. */
  lemma ListDefaultServiceExample(render: FlagRenderer)
    requires render(SERVICE, Some(Text("default"))) == ["--service", "default"]
    requires render(HIDE_NO_TRAFFIC, Some(Switch(true))) == ["--hide-no-traffic", "true"]
    requires render(PROJECT, None) == []
    ensures ListArguments(ListConfiguration(Some("default"), Some(true), None), render)
            == ["app", "versions", "list", "--service", "default", "--hide-no-traffic", "true"]
  {
  }
}
