/**
 * The automation gateway: runs a playbook from a fixed directory with the
 * `ansible-playbook` command, counts runs per (playbook, status), records
 * their duration and keeps an in-flight gauge; it also lists the playbooks
 * in that directory and shows one playbook's (truncated) content.
 */
module Gateway {
  import opened Results
  import opened Strings
  import opened Environment
  import PosixPath
  import ExtraVars

  const ANSIBLE_BASE_DIR: string := "/home/ec2-user/ansible-zos"
  const ANSIBLE_DIR: string := PosixPath.Join(ANSIBLE_BASE_DIR, "ansible")
  const TIMEOUT_SECONDS: nat := 1800
  const TIMEOUT_MESSAGE: string := "Playbook execution timed out after 30 minutes"
  const CONTENT_LIMIT: nat := 1000
  const PLAYBOOK_SUFFIX: string := ".yml"

  /** Request body of `POST /playbooks/execute`; `extraVars` holds the rendered `(str(k), str(v))` pairs in iteration order. */
  datatype ExecutionRequest = ExecutionRequest(playbook: string, inventory: string, extraVars: Option<seq<(string, string)>>)

  /** The body sent when the request is empty. */
  const DEFAULT_REQUEST: ExecutionRequest := ExecutionRequest("create_hamlet_jcl.yml", "inventory.yml", None)

  datatype ExecutionResponse = ExecutionResponse(
    executionId: string,
    playbook: string,
    success: bool,
    exitCode: int,
    stdout: string,
    stderr: string,
    startedAt: string,
    finishedAt: string,
    durationSeconds: real)

  /** The two kinds of exception `execute_playbook` lets escape. */
  datatype ExecutionError = ValueError(message: string) | OtherError(message: string)

  /** The UUID and the clock readings of one run, supplied from outside. */
  datatype RunClock = RunClock(startedAt: string, finishedAt: string, durationSeconds: real)

  /** Side effects of one `execute_playbook` call, in the order they happen. */
  datatype Step =
    | GaugeInc
    | Launch(invocation: Invocation, queueDepth: int)   // the gauge's value while the process runs
    | CountExecution(playbook: string, status: string)
    | ObserveDuration(playbook: string, seconds: real)
    | GaugeDec

  /** Python truthiness of `request.extra_vars`: present and non-empty. */
  predicate HasExtraVars(request: ExecutionRequest)
  {
    request.extraVars.Some? && |request.extraVars.value| > 0
  }

  /** The command line the gateway must launch for `request`. */
  predicate IsCommandFor(request: ExecutionRequest, argv: seq<string>)
  {
    && |argv| >= 4
    && argv[..4] == ["ansible-playbook", "-i", request.inventory, request.playbook]
    && (HasExtraVars(request) ==> argv[4..] == ["-e", ExtraVars.Render(request.extraVars.value)])
    && (!HasExtraVars(request) ==> |argv| == 4)
  }

  function PlaybookPath(request: ExecutionRequest): string
  {
    PosixPath.Join(ANSIBLE_DIR, request.playbook)
  }

  function InventoryPath(request: ExecutionRequest): string
  {
    PosixPath.Join(ANSIBLE_DIR, request.inventory)
  }

  /** Both files named by the request exist, so a process will be launched. */
  predicate Validated(request: ExecutionRequest, fs: FileSystem)
  {
    PlaybookPath(request) in fs && InventoryPath(request) in fs
  }

  function PlaybookNotFound(playbook: string): string
  {
    "Playbook '" + playbook + "' not found in " + ANSIBLE_DIR
  }

  function InventoryNotFound(inventory: string): string
  {
    "Inventory '" + inventory + "' not found in " + ANSIBLE_DIR
  }

  /** The `status` label of the execution counter. */
  function StatusLabel(success: bool): (status: string)
    ensures status == "success" || status == "failed"
    ensures status == "success" <==> success
  {
    if success then "success" else "failed"
  }

  /** The three Prometheus instruments the gateway updates. */
  class Metrics {
    var executions: map<(string, string), nat>   // playbook_executions_total{playbook, status}
    var durations: map<string, seq<real>>        // playbook_execution_duration_seconds{playbook}
    var queueDepth: int                          // playbook_queue_depth

    constructor ()
      ensures executions == map[] && durations == map[] && queueDepth == 0
    {
      executions := map[];
      durations := map[];
      queueDepth := 0;
    }

    function ExecutionCount(playbook: string, status: string): nat
      reads this
    {
      if (playbook, status) in executions then executions[(playbook, status)] else 0
    }

    function Observations(playbook: string): seq<real>
      reads this
    {
      if playbook in durations then durations[playbook] else []
    }

    method IncQueueDepth()
      modifies this
      ensures queueDepth == old(queueDepth) + 1
      ensures executions == old(executions) && durations == old(durations)
    {
      queueDepth := queueDepth + 1;
    }

    method DecQueueDepth()
      modifies this
      ensures queueDepth == old(queueDepth) - 1
      ensures executions == old(executions) && durations == old(durations)
    {
      queueDepth := queueDepth - 1;
    }

    /** One more run of `playbook` with `status`, and one more duration observation for it. */
    method RecordCompletion(playbook: string, status: string, seconds: real)
      modifies this
      ensures executions == old(executions)[(playbook, status) := old(ExecutionCount(playbook, status)) + 1]
      ensures durations == old(durations)[playbook := old(Observations(playbook)) + [seconds]]
      ensures queueDepth == old(queueDepth)
    {
      executions := executions[(playbook, status) := ExecutionCount(playbook, status) + 1];
      durations := durations[playbook := Observations(playbook) + [seconds]];
    }
  }

  /** Builds the argument vector, extending it with `-e` only for non-empty extra variables. */
  method BuildCommand(request: ExecutionRequest) returns (command: seq<string>)
    ensures IsCommandFor(request, command)
  {
    command := ["ansible-playbook", "-i", request.inventory, request.playbook];
    if HasExtraVars(request) {
      var extraVarsArg := ExtraVars.Render(request.extraVars.value);
      command := command + ["-e", extraVarsArg];
    }
  }

  /** An empty request body runs the default playbook against the default inventory, without `-e`. */
  lemma DefaultRequestCommand(argv: seq<string>)
    ensures IsCommandFor(DEFAULT_REQUEST, argv) <==> argv == ["ansible-playbook", "-i", "inventory.yml", "create_hamlet_jcl.yml"]
  {
    if IsCommandFor(DEFAULT_REQUEST, argv) {
      assert argv == argv[..4];
    }
  }

  /** The gauge is raised first and lowered last, each exactly once. */
  predicate Bracketed(steps: seq<Step>)
  {
    && |steps| >= 2 && steps[0] == GaugeInc && steps[|steps| - 1] == GaugeDec
    && GaugeInc !in steps[1..] && GaugeDec !in steps[..|steps| - 1]
  }

  /** The launch of `request`'s command from the Ansible directory with the 30-minute timeout, at gauge value `depth`. */
  predicate LaunchesCommand(request: ExecutionRequest, step: Step, depth: int)
  {
    && step.Launch?
    && IsCommandFor(request, step.invocation.argv)
    && step.invocation.cwd == ANSIBLE_DIR
    && step.invocation.timeoutSeconds == TIMEOUT_SECONDS
    && step.queueDepth == depth
  }

  /** The response to a completed run: success exactly when the exit code is 0, output passed through. */
  function CompletedResponse(request: ExecutionRequest, run: ProcessRun, executionId: string, clock: RunClock): (response: ExecutionResponse)
    requires run.Completed?
    ensures response.success <==> run.returncode == 0
    ensures response.exitCode == run.returncode && response.stdout == run.stdout && response.stderr == run.stderr
    ensures response.executionId == executionId && response.playbook == request.playbook
    ensures response.durationSeconds == clock.durationSeconds
  {
    ExecutionResponse(executionId, request.playbook, run.returncode == 0, run.returncode,
                      run.stdout, run.stderr, clock.startedAt, clock.finishedAt, clock.durationSeconds)
  }

  /**
   * `execute_playbook`: validate the playbook then the inventory, launch the
   * command, classify the exit code, count the completed run; the gauge is
   * raised on entry and lowered on every way out.
   */
  method ExecutePlaybook(metrics: Metrics, request: ExecutionRequest, fs: FileSystem, run: ProcessRun, executionId: string, clock: RunClock)
    returns (outcome: Result<ExecutionResponse, ExecutionError>, steps: seq<Step>)
    modifies metrics
    // the gauge is balanced on every path
    ensures metrics.queueDepth == old(metrics.queueDepth)
    ensures Bracketed(steps)
    // validation comes first, playbook before inventory, and launches nothing
    ensures PlaybookPath(request) !in fs ==>
      outcome == Failure(ValueError(PlaybookNotFound(request.playbook))) && steps == [GaugeInc, GaugeDec]
    ensures PlaybookPath(request) in fs && InventoryPath(request) !in fs ==>
      outcome == Failure(ValueError(InventoryNotFound(request.inventory))) && steps == [GaugeInc, GaugeDec]
    // the launch: right command, right directory, gauge one above its value on entry
    ensures Validated(request, fs) ==>
      |steps| >= 3 && LaunchesCommand(request, steps[1], old(metrics.queueDepth) + 1)
    // a completed run is classified by its exit code and counted once
    ensures Validated(request, fs) && run.Completed? ==>
      && outcome == Success(CompletedResponse(request, run, executionId, clock))
      && steps[2..] == [CountExecution(request.playbook, StatusLabel(run.returncode == 0)),
                        ObserveDuration(request.playbook, clock.durationSeconds), GaugeDec]
      && metrics.executions == old(metrics.executions)[(request.playbook, StatusLabel(run.returncode == 0)) :=
                                 old(metrics.ExecutionCount(request.playbook, StatusLabel(run.returncode == 0))) + 1]
      && metrics.durations == old(metrics.durations)[request.playbook :=
                                 old(metrics.Observations(request.playbook)) + [clock.durationSeconds]]
    // otherwise no counter or histogram moves
    ensures !(Validated(request, fs) && run.Completed?) ==>
      metrics.executions == old(metrics.executions) && metrics.durations == old(metrics.durations)
    // a timeout becomes a ValueError; an exception from the run is re-raised as it is
    ensures Validated(request, fs) && run.TimedOut? ==>
      outcome == Failure(ValueError(TIMEOUT_MESSAGE)) && steps[2..] == [GaugeDec]
    ensures Validated(request, fs) && run.RaisedValueError? ==>
      outcome == Failure(ValueError(run.message)) && steps[2..] == [GaugeDec]
    ensures Validated(request, fs) && run.Crashed? ==>
      outcome == Failure(OtherError(run.message)) && steps[2..] == [GaugeDec]
  {
    metrics.IncQueueDepth();
    // each path writes out its whole trace, ending with the `finally` that lowers the gauge
    if PlaybookPath(request) !in fs {
      outcome := Failure(ValueError(PlaybookNotFound(request.playbook)));
      steps := [GaugeInc, GaugeDec];
    } else if InventoryPath(request) !in fs {
      outcome := Failure(ValueError(InventoryNotFound(request.inventory)));
      steps := [GaugeInc, GaugeDec];
    } else {
      var command := BuildCommand(request);
      var launch := Launch(Invocation(command, ANSIBLE_DIR, TIMEOUT_SECONDS), metrics.queueDepth);
      steps := [GaugeInc, launch, GaugeDec];
      match run
      case Completed(returncode, stdout, stderr) =>
        var success := returncode == 0;
        var status := StatusLabel(success);
        metrics.RecordCompletion(request.playbook, status, clock.durationSeconds);
        steps := [GaugeInc, launch, CountExecution(request.playbook, status),
                  ObserveDuration(request.playbook, clock.durationSeconds), GaugeDec];
        outcome := Success(ExecutionResponse(executionId, request.playbook, success, returncode, stdout, stderr,
                                             clock.startedAt, clock.finishedAt, clock.durationSeconds));
      case TimedOut =>
        outcome := Failure(ValueError(TIMEOUT_MESSAGE));
      case RaisedValueError(message) =>
        outcome := Failure(ValueError(message));
      case Crashed(message) =>
        outcome := Failure(OtherError(message));
    }
    metrics.DecQueueDepth();
  }

  /** The `except` clauses of the `execute` endpoint: `ValueError` is a client error, anything else a server error. */
  function ToReply(outcome: Result<ExecutionResponse, ExecutionError>): (reply: Reply<ExecutionResponse>)
    ensures reply.Ok? <==> outcome.Success?
    ensures reply.Ok? ==> reply.body == outcome.value
    ensures reply.HttpError? ==> (reply.status == 400 <==> outcome.error.ValueError?)
    ensures reply.HttpError? ==> (reply.status == 500 <==> outcome.error.OtherError?)
    ensures reply.HttpError? ==> EndsWith(reply.detail, outcome.error.message)
  {
    match outcome
    case Success(response) => Ok(response)
    case Failure(ValueError(message)) => HttpError(400, message)
    case Failure(OtherError(message)) => HttpError(500, "Error executing playbook: " + message)
  }

  /** `POST /playbooks/execute`. */
  method Execute(metrics: Metrics, request: ExecutionRequest, fs: FileSystem, run: ProcessRun, executionId: string, clock: RunClock)
    returns (reply: Reply<ExecutionResponse>, steps: seq<Step>)
    modifies metrics
    ensures metrics.queueDepth == old(metrics.queueDepth)
    ensures Bracketed(steps)
    // validation failures are client errors and launch nothing
    ensures PlaybookPath(request) !in fs ==>
      reply == HttpError(400, PlaybookNotFound(request.playbook)) && steps == [GaugeInc, GaugeDec]
    ensures PlaybookPath(request) in fs && InventoryPath(request) !in fs ==>
      reply == HttpError(400, InventoryNotFound(request.inventory)) && steps == [GaugeInc, GaugeDec]
    ensures Validated(request, fs) ==>
      |steps| >= 3 && LaunchesCommand(request, steps[1], old(metrics.queueDepth) + 1)
    // a completed run is a 200 reply, counted once
    ensures Validated(request, fs) && run.Completed? ==>
      && reply == Ok(CompletedResponse(request, run, executionId, clock))
      && steps[2..] == [CountExecution(request.playbook, StatusLabel(run.returncode == 0)),
                        ObserveDuration(request.playbook, clock.durationSeconds), GaugeDec]
      && metrics.executions == old(metrics.executions)[(request.playbook, StatusLabel(run.returncode == 0)) :=
                                 old(metrics.ExecutionCount(request.playbook, StatusLabel(run.returncode == 0))) + 1]
      && metrics.durations == old(metrics.durations)[request.playbook :=
                                 old(metrics.Observations(request.playbook)) + [clock.durationSeconds]]
    ensures !(Validated(request, fs) && run.Completed?) ==>
      metrics.executions == old(metrics.executions) && metrics.durations == old(metrics.durations)
    // a timeout and a ValueError from the run are client errors, anything else a server error
    ensures Validated(request, fs) && run.TimedOut? ==>
      reply == HttpError(400, TIMEOUT_MESSAGE) && steps[2..] == [GaugeDec]
    ensures Validated(request, fs) && run.RaisedValueError? ==>
      reply == HttpError(400, run.message) && steps[2..] == [GaugeDec]
    ensures Validated(request, fs) && run.Crashed? ==>
      reply == HttpError(500, "Error executing playbook: " + run.message) && steps[2..] == [GaugeDec]
  {
    var outcome;
    outcome, steps := ExecutePlaybook(metrics, request, fs, run, executionId, clock);
    reply := ToReply(outcome);
  }

  // ---------------------------------------------------------------------
  // GET /playbooks/available
  // ---------------------------------------------------------------------

  datatype Listing = Listing(directory: string, count: nat, playbooks: seq<string>)

  predicate IsPlaybookFile(name: string)
  {
    EndsWith(name, PLAYBOOK_SUFFIX)
  }

  /** `[f for f in entries if f.endswith('.yml')]` */
  function PlaybookFiles(entries: seq<string>): (files: seq<string>)
    ensures forall x :: multiset(files)[x] == if IsPlaybookFile(x) then multiset(entries)[x] else 0
  {
    if |entries| == 0 then []
    else
      assert entries == [entries[0]] + entries[1..];
      (if IsPlaybookFile(entries[0]) then [entries[0]] else []) + PlaybookFiles(entries[1..])
  }

  function ListPlaybooks(entries: seq<string>): (listing: Listing)
    ensures listing.directory == ANSIBLE_DIR
    ensures listing.count == |listing.playbooks|
    ensures Sorted(listing.playbooks)
    ensures forall x :: x in listing.playbooks <==> x in entries && IsPlaybookFile(x)
    ensures multiset(listing.playbooks) == multiset(PlaybookFiles(entries))
  {
    var files := PlaybookFiles(entries);
    var playbooks := SortStrings(files);
    assert forall x :: x in playbooks <==> x in multiset(files);
    Listing(ANSIBLE_DIR, |files|, playbooks)
  }

  /** The listing depends only on which names the directory holds, not on the order `os.listdir` returns them in. */
  lemma ListingIgnoresDirectoryOrder(entries1: seq<string>, entries2: seq<string>)
    requires multiset(entries1) == multiset(entries2)
    ensures ListPlaybooks(entries1) == ListPlaybooks(entries2)
  {
    var files1, files2 := PlaybookFiles(entries1), PlaybookFiles(entries2);
    forall x ensures multiset(files1)[x] == multiset(files2)[x] {
    }
    assert multiset(files1) == multiset(files2);
    assert |files1| == |multiset(files1)| == |multiset(files2)| == |files2|;
    SortedUnique(SortStrings(files1), SortStrings(files2));
  }

  /** `list_available_playbooks` */
  function ListAvailablePlaybooks(fs: FileSystem): (reply: Reply<Listing>)
    ensures !IsDir(fs, ANSIBLE_DIR) ==> reply == HttpError(404, "Ansible directory not found: " + ANSIBLE_DIR)
    ensures IsDir(fs, ANSIBLE_DIR) && fs[ANSIBLE_DIR].UnlistableDirectory? ==>
      reply == HttpError(500, "Error listing playbooks: " + fs[ANSIBLE_DIR].reason)
    ensures reply.Ok? <==> ANSIBLE_DIR in fs && fs[ANSIBLE_DIR].Directory?
    ensures reply.Ok? ==> reply.body == ListPlaybooks(fs[ANSIBLE_DIR].entries)
  {
    if !IsDir(fs, ANSIBLE_DIR) then HttpError(404, "Ansible directory not found: " + ANSIBLE_DIR)
    else match fs[ANSIBLE_DIR]
      case Directory(entries) => Ok(ListPlaybooks(entries))
      case UnlistableDirectory(reason) => HttpError(500, "Error listing playbooks: " + reason)
  }

  // ---------------------------------------------------------------------
  // GET /playbooks/{playbook_name}
  // ---------------------------------------------------------------------

  datatype PlaybookInfo = PlaybookInfo(name: string, path: string, found: bool, sizeBytes: nat, content: string)

  /** The first 1000 characters followed by `...` when the content is longer than that. */
  function TruncateContent(content: string): (shown: string)
    ensures |shown| <= CONTENT_LIMIT + 3
    ensures |content| <= CONTENT_LIMIT ==> shown == content
    ensures |content| > CONTENT_LIMIT ==>
      |shown| == CONTENT_LIMIT + 3 && shown[..CONTENT_LIMIT] == content[..CONTENT_LIMIT] && shown[CONTENT_LIMIT..] == "..."
  {
    if |content| > CONTENT_LIMIT then content[..CONTENT_LIMIT] + "..." else content
  }

  /** Truncating shown content again changes nothing. */
  lemma TruncateIdempotent(content: string)
    ensures TruncateContent(TruncateContent(content)) == TruncateContent(content)
  {
    if |content| > CONTENT_LIMIT {
      var shown := TruncateContent(content);
      assert shown[..CONTENT_LIMIT] == content[..CONTENT_LIMIT];
      assert shown[..CONTENT_LIMIT] + "..." == shown;
    }
  }

  /** `get_playbook_info` */
  function GetPlaybookInfo(fs: FileSystem, name: string): (reply: Reply<PlaybookInfo>)
    ensures PosixPath.Join(ANSIBLE_DIR, name) !in fs <==> reply == HttpError(404, "Playbook '" + name + "' not found")
    ensures reply.Ok? <==> PosixPath.Join(ANSIBLE_DIR, name) in fs && fs[PosixPath.Join(ANSIBLE_DIR, name)].File?
    ensures reply.Ok? ==>
      var file := fs[PosixPath.Join(ANSIBLE_DIR, name)];
      reply.body == PlaybookInfo(name, PosixPath.Join(ANSIBLE_DIR, name), true, file.sizeBytes, TruncateContent(file.content))
    ensures reply.HttpError? && reply.status == 500 ==> StartsWithReadError(reply.detail)
    // a path that exists but cannot be read as a file is a server error
    ensures var path := PosixPath.Join(ANSIBLE_DIR, name);
      path in fs && !fs[path].File? ==> reply.HttpError? && reply.status == 500 && StartsWithReadError(reply.detail)
    ensures var path := PosixPath.Join(ANSIBLE_DIR, name);
      path in fs && fs[path].UnreadableFile? ==> reply == HttpError(500, READ_ERROR_PREFIX + fs[path].reason)
    ensures var path := PosixPath.Join(ANSIBLE_DIR, name);
      path in fs && fs[path].Directory? ==> reply == HttpError(500, READ_ERROR_PREFIX + IsADirectoryMessage(path))
    // a directory that cannot even be opened reports the error `open` raised
    ensures var path := PosixPath.Join(ANSIBLE_DIR, name);
      path in fs && fs[path].UnlistableDirectory? ==> reply == HttpError(500, READ_ERROR_PREFIX + fs[path].reason)
  {
    var path := PosixPath.Join(ANSIBLE_DIR, name);
    if path !in fs then HttpError(404, "Playbook '" + name + "' not found")
    else match fs[path]
      case File(content, sizeBytes) => Ok(PlaybookInfo(name, path, true, sizeBytes, TruncateContent(content)))
      case UnreadableFile(reason) => HttpError(500, READ_ERROR_PREFIX + reason)
      case Directory(_) => HttpError(500, READ_ERROR_PREFIX + IsADirectoryMessage(path))
      case UnlistableDirectory(reason) => HttpError(500, READ_ERROR_PREFIX + reason)
  }

  const READ_ERROR_PREFIX: string := "Error reading playbook: "

  predicate StartsWithReadError(detail: string)
  {
    |READ_ERROR_PREFIX| <= |detail| && detail[..|READ_ERROR_PREFIX|] == READ_ERROR_PREFIX
  }
}
