/**
 * The object-store runner behind `POST /run-jcl`: fetch a playbook, a JCL
 * file and the host key from one bucket into a scratch directory, restrict
 * the key, write an inventory, run the playbook engine there, and shape
 * its exit code, output and optional JSON result into a reply.
 */
module JclRunner {
  import opened Results
  import opened Strings
  import opened Environment
  import PosixPath
  import ExtraVars

  const S3_BUCKET: string := "ansible-playbook-s3-dae"
  const KEY_OBJECT: string := "mainframe_key.pem"
  const INVENTORY_FILE: string := "inventory.yml"
  const OWNER_READ_WRITE: nat := 6 * 64   // mode 0o600
  const TIMEOUT_SECONDS: nat := 1800
  const DEFAULT_PLAYBOOK: string := "create_hamlet_jcl.yml"
  const DEFAULT_JCL_FILE: string := "GENER3"
  const TIMEOUT_DETAIL: string := "Playbook timed out"
  /** `str(e)` of the client error the object store raises for a key it does not hold. */
  const MISSING_OBJECT_MESSAGE: string := "An error occurred (404) when calling the HeadObject operation: Not Found"

  // ---------------------------------------------------------------------
  // Object keys
  // ---------------------------------------------------------------------

  /** `f"{s3_prefix}/".lstrip("/") if s3_prefix else ""` */
  function NormalizePrefix(s3Prefix: string): (prefix: string)
    ensures s3Prefix == "" ==> prefix == ""
    ensures prefix == "" <==> forall i :: 0 <= i < |s3Prefix| ==> s3Prefix[i] == '/'
    ensures prefix != "" ==> prefix[0] != '/' && prefix[|prefix| - 1] == '/'
  {
    if s3Prefix == "" then ""
    else
      var slashed := s3Prefix + "/";
      var stripped := LStrip(slashed, '/');
      assert forall i :: 0 <= i < |s3Prefix| ==> slashed[i] == s3Prefix[i];
      assert stripped != "" ==> stripped[0] == slashed[|slashed| - |stripped|];
      stripped
  }

  /** A prefix with any character other than `/` loses its leading slashes and gains exactly one trailing `/`. */
  lemma {:induction false} PrefixIsStrippedPlusSlash(s3Prefix: string)
    requires exists i :: 0 <= i < |s3Prefix| && s3Prefix[i] != '/'
    ensures NormalizePrefix(s3Prefix) == LStrip(s3Prefix, '/') + "/"
  {
    var i :| 0 <= i < |s3Prefix| && s3Prefix[i] != '/';
    var slashed := s3Prefix + "/";
    if s3Prefix[0] == '/' {
      var rest := s3Prefix[1..];
      assert rest[i - 1] != '/';
      assert slashed[1..] == rest + "/";
      assert LStrip(slashed, '/') == LStrip(rest + "/", '/');
      assert LStrip(s3Prefix, '/') == LStrip(rest, '/');
      PrefixIsStrippedPlusSlash(rest);
    } else {
      assert slashed[0] == s3Prefix[0];
    }
  }

  /** A prefix that already ends in `/` keeps it and gains a second one: `"teamA/"` becomes `"teamA//"`. */
  lemma TrailingSlashIsDoubled(s3Prefix: string)
    requires |s3Prefix| > 0 && s3Prefix[0] != '/' && s3Prefix[|s3Prefix| - 1] == '/'
    ensures NormalizePrefix(s3Prefix) == s3Prefix + "/"
    ensures NormalizePrefix(s3Prefix)[|s3Prefix| - 1..] == "//"
  {
    assert (s3Prefix + "/")[0] == s3Prefix[0];
  }

  /** The object holding the playbook: under the prefix, ending with the playbook's name. */
  function PlaybookKey(prefix: string, playbookName: string): (key: string)
    ensures |prefix| <= |key| && key[..|prefix|] == prefix
    ensures EndsWith(key, playbookName)
  {
    prefix + "ansible/playbooks/" + playbookName
  }

  /** The object holding the JCL member: under the prefix, ending with the member's name. */
  function JclKey(prefix: string, jclFile: string): (key: string)
    ensures |prefix| <= |key| && key[..|prefix|] == prefix
    ensures EndsWith(key, jclFile)
  {
    prefix + "ansible/jcl/" + jclFile
  }

  /** Whatever the prefix and names, the playbook and the JCL file are fetched from different objects, neither of them the key object. */
  lemma KeysAreDistinct(s3Prefix: string, playbookName: string, jclFile: string)
    ensures PlaybookKey(NormalizePrefix(s3Prefix), playbookName) != JclKey(NormalizePrefix(s3Prefix), jclFile)
    ensures PlaybookKey(NormalizePrefix(s3Prefix), playbookName) != KEY_OBJECT
    ensures JclKey(NormalizePrefix(s3Prefix), jclFile) != KEY_OBJECT
  {
    var prefix := NormalizePrefix(s3Prefix);
    var pk, jk := PlaybookKey(prefix, playbookName), JclKey(prefix, jclFile);
    assert pk[|prefix| + 8] == 'p' && jk[|prefix| + 8] == 'j';
    if prefix == "" {
      assert pk[0] == 'a' && jk[0] == 'a' && KEY_OBJECT[0] == 'm';
    } else {
      assert pk[0] == prefix[0] && jk[0] == prefix[0];
      assert pk[|prefix| - 1] == '/' && jk[|prefix| - 1] == '/';
      if |prefix| - 1 < |KEY_OBJECT| {
        assert '/' !in KEY_OBJECT;
      }
    }
  }

  /** With no prefix the keys are the bare repository paths. */
  lemma EmptyPrefixKeys(playbookName: string, jclFile: string)
    ensures PlaybookKey(NormalizePrefix(""), playbookName) == "ansible/playbooks/" + playbookName
    ensures JclKey(NormalizePrefix(""), jclFile) == "ansible/jcl/" + jclFile
  {
  }

  /** A request with every parameter left at its default fetches the repository's own playbook and JCL member. */
  lemma DefaultRunKeys()
    ensures PlaybookKey(NormalizePrefix(""), DEFAULT_PLAYBOOK) == "ansible/playbooks/create_hamlet_jcl.yml"
    ensures JclKey(NormalizePrefix(""), DEFAULT_JCL_FILE) == "ansible/jcl/GENER3"
  {
    EmptyPrefixKeys(DEFAULT_PLAYBOOK, DEFAULT_JCL_FILE);
  }

  // ---------------------------------------------------------------------
  // Inventory and command line
  // ---------------------------------------------------------------------

  /** Connection settings of the single target host. */
  datatype HostVars = HostVars(
    ansibleHost: string,
    ansibleUser: string,
    ansibleConnection: string,
    ansibleSshPrivateKeyFile: string,
    ansibleSshCommonArgs: string,
    ansiblePythonInterpreter: string,
    ansiblePipelining: bool,
    ansibleRemoteTmp: string)

  /** `{"all": {"children": {group: {"hosts": {host: vars}}}}}` */
  datatype Inventory = Inventory(group: string, host: string, vars: HostVars)

  function BuildInventory(keyPath: string): (inventory: Inventory)
    ensures inventory.vars.ansibleSshPrivateKeyFile == keyPath
  {
    Inventory("zos", "mainframe", HostVars(
      ansibleHost := "67.217.62.83",
      ansibleUser := "GAMA12",
      ansibleConnection := "ssh",
      ansibleSshPrivateKeyFile := keyPath,
      ansibleSshCommonArgs := "-o StrictHostKeyChecking=no",
      ansiblePythonInterpreter := "/usr/lpp/IBM/cyp/v3r11/pyz/bin/python",
      ansiblePipelining := true,
      ansibleRemoteTmp := "/tmp/ansible-gama12"))
  }

  /** Two inventories differ at most in the key-file path, and only when the key paths differ. */
  lemma InventoryVariesOnlyInKeyPath(keyPath1: string, keyPath2: string)
    ensures var inventory1, inventory2 := BuildInventory(keyPath1), BuildInventory(keyPath2);
      inventory1.(vars := inventory1.vars.(ansibleSshPrivateKeyFile := keyPath2)) == inventory2
    ensures BuildInventory(keyPath1) == BuildInventory(keyPath2) <==> keyPath1 == keyPath2
  {
  }

  /**
   * The engine's command line: the interpreter running the playbook module on
   * the written inventory and the fetched playbook, with the single extra
   * variable `jcl_file`.
   */
  function PlaybookArgv(python: string, inventoryPath: string, playbookName: string, jclFile: string): (argv: seq<string>)
    ensures |argv| == 8 && argv[0] == python
    ensures argv[1] == "-m" && argv[2] == "ansible.cli.playbook"
    ensures argv[3] == "-i" && argv[4] == inventoryPath && argv[5] == playbookName
    ensures argv[6] == "-e" && argv[7] == ExtraVars.Render([("jcl_file", jclFile)])
  {
    assert ExtraVars.Assignments([("jcl_file", jclFile)]) == ["jcl_file" + "=" + jclFile];
    assert ExtraVars.Render([("jcl_file", jclFile)]) == "jcl_file=" + jclFile;
    [python, "-m", "ansible.cli.playbook", "-i", inventoryPath, playbookName, "-e", "jcl_file=" + jclFile]
  }

  /** The `-e` argument is read back as the one binding `jcl_file` when the name has no space. */
  lemma {:induction false} JclFileArgument(python: string, inventoryPath: string, playbookName: string, jclFile: string)
    requires ' ' !in jclFile
    ensures ExtraVars.Parse(PlaybookArgv(python, inventoryPath, playbookName, jclFile)[7]) == Some([("jcl_file", jclFile)])
  {
    var vars := [("jcl_file", jclFile)];
    assert vars[0] == ("jcl_file", jclFile);
    assert ' ' !in "jcl_file" && '=' !in "jcl_file";
    ExtraVars.RenderParse(vars);
  }

  // ---------------------------------------------------------------------
  // Result interpretation and the reply
  // ---------------------------------------------------------------------

  /** A decoded `jcl_result.json`. */
  datatype Json =
    | JNull
    | JBool(b: bool)
    | JNumber(n: real)
    | JNaN                        // `NaN`, which `json.load` accepts
    | JInfinity(negative: bool)   // `Infinity` and `-Infinity`, likewise
    | JString(s: string)
    | JArray(items: seq<Json>)
    | JObject(members: seq<(string, Json)>)

  /** Python truthiness of the decoded value. */
  predicate Truthy(value: Json)
  {
    match value
    case JNull => false
    case JBool(b) => b
    case JNumber(n) => n != 0.0
    case JNaN => true
    case JInfinity(_) => true
    case JString(s) => s != ""
    case JArray(items) => items != []
    case JObject(members) => members != []
  }

  /** What the scratch directory holds under `jcl_result.json` once the run is over. */
  datatype ResultFile =
    | Absent
    | Parsed(value: Json)
    | Malformed(error: string)    // `json.load` raises `JSONDecodeError`
    | Unreadable(error: string)   // `open` or decoding raises anything else

  /** The exceptions the `try` body can raise. */
  datatype RunError = TimeoutExpired | HttpException(status: nat, detail: string) | OtherException(message: string)

  datatype RunResponse = RunResponse(
    jobId: string,
    status: string,
    playbook: string,
    jclFile: string,
    success: bool,
    exitCode: int,
    stdout: string,
    stderr: string,
    jclResult: Option<Json>)   // None: the key is left out of the reply

  /** The reply dictionary of a completed run. */
  function ShapeResponse(jobId: string, playbookName: string, jclFile: string, run: ProcessRun, jclResult: Option<Json>): (response: RunResponse)
    requires run.Completed?
    ensures response.status == "completed"
    ensures response.success <==> run.returncode == 0
    ensures response.exitCode == run.returncode && response.stdout == run.stdout && response.stderr == run.stderr
    ensures response.jobId == jobId && response.playbook == playbookName && response.jclFile == jclFile
    ensures response.jclResult.Some? <==> jclResult.Some? && Truthy(jclResult.value)
    ensures response.jclResult.Some? ==> response.jclResult == jclResult
  {
    RunResponse(jobId, "completed", playbookName, jclFile, run.returncode == 0, run.returncode, run.stdout, run.stderr,
                if jclResult.Some? && Truthy(jclResult.value) then jclResult else None)
  }

  /** The result file never decides success: whatever it holds, `success` and `exit_code` come from the process alone. */
  lemma ResultNeverDecidesSuccess(jobId: string, playbookName: string, jclFile: string, run: ProcessRun, result1: Option<Json>, result2: Option<Json>)
    requires run.Completed?
    ensures ShapeResponse(jobId, playbookName, jclFile, run, result1).(jclResult := None)
         == ShapeResponse(jobId, playbookName, jclFile, run, result2).(jclResult := None)
  {
  }

  /** The `except` clauses of `run_jcl`. */
  function ErrorReply(error: RunError): (reply: Reply<RunResponse>)
    ensures reply.HttpError?
    ensures error.TimeoutExpired? ==> reply == HttpError(408, TIMEOUT_DETAIL)
    ensures error.HttpException? ==> reply == HttpError(error.status, error.detail)
    ensures error.OtherException? ==> reply == HttpError(500, error.message)
  {
    match error
    case TimeoutExpired => HttpError(408, TIMEOUT_DETAIL)
    case HttpException(status, detail) => HttpError(status, detail)
    case OtherException(message) => HttpError(500, message)
  }

  // ---------------------------------------------------------------------
  // The run itself
  // ---------------------------------------------------------------------

  /** One `download_file` call: the object and the local path it is written to. */
  datatype Download = Download(key: string, dest: string)

  /** The three downloads of a run, in the order they are made. */
  function Downloads(prefix: string, scratchDir: string, playbookName: string, jclFile: string): (downloads: seq<Download>)
    ensures |downloads| == 3
    ensures downloads[0] == Download(PlaybookKey(prefix, playbookName), PosixPath.Join(scratchDir, playbookName))
    ensures downloads[1] == Download(JclKey(prefix, jclFile), PosixPath.Join(scratchDir, jclFile))
    ensures downloads[2] == Download(KEY_OBJECT, PosixPath.Join(scratchDir, KEY_OBJECT))
  {
    [Download(PlaybookKey(prefix, playbookName), PosixPath.Join(scratchDir, playbookName)),
     Download(JclKey(prefix, jclFile), PosixPath.Join(scratchDir, jclFile)),
     Download(KEY_OBJECT, PosixPath.Join(scratchDir, KEY_OBJECT))]
  }

  /**
   * `str(e)` of what a download raises, if anything. `store` is the set of
   * keys the bucket holds: a missing key is reported before anything is
   * written. `failures` maps a download to any other exception it raises,
   * such as a destination under a directory that does not exist.
   */
  function DownloadError(store: set<string>, failures: map<Download, string>, download: Download): Option<string>
  {
    if download.key !in store then Some(MISSING_OBJECT_MESSAGE)
    else if download in failures then Some(failures[download])
    else None
  }

  /** How many downloads succeed before the first one that raises; `|downloads|` when none does. */
  function FirstFailure(store: set<string>, failures: map<Download, string>, downloads: seq<Download>): (n: nat)
    ensures n <= |downloads|
    ensures forall i :: 0 <= i < n ==> DownloadError(store, failures, downloads[i]).None?
    ensures n < |downloads| ==> DownloadError(store, failures, downloads[n]).Some?
  {
    if |downloads| == 0 || DownloadError(store, failures, downloads[0]).Some? then 0
    else 1 + FirstFailure(store, failures, downloads[1..])
  }

  /** For three downloads, the first failure is found by trying each in turn. */
  lemma FirstFailureOfThree(store: set<string>, failures: map<Download, string>, downloads: seq<Download>)
    requires |downloads| == 3
    ensures FirstFailure(store, failures, downloads) ==
      if DownloadError(store, failures, downloads[0]).Some? then 0
      else if DownloadError(store, failures, downloads[1]).Some? then 1
      else if DownloadError(store, failures, downloads[2]).Some? then 2
      else 3
  {
    assert downloads[1..][0] == downloads[1] && downloads[1..][1..][0] == downloads[2] && |downloads[1..][1..][1..]| == 0;
  }

  /** Side effects of one run, in order. */
  datatype Step =
    | Fetched(bucket: string, key: string, dest: string)
    | Chmod(path: string, mode: nat)
    | WriteInventory(path: string, inventory: Inventory)
    | Launch(invocation: Invocation)
    | LogWarning(message: string)

  /** The first `n` steps are the first `n` downloads, from the one bucket. */
  predicate FetchedInOrder(steps: seq<Step>, downloads: seq<Download>, n: nat)
  {
    n <= |steps| && n <= |downloads| &&
    forall i :: 0 <= i < n ==> steps[i] == Fetched(S3_BUCKET, downloads[i].key, downloads[i].dest)
  }

  /** What follows the downloads once all succeed: the key restricted at once, the inventory written, the engine launched. */
  function Preparation(scratchDir: string, python: string, playbookName: string, jclFile: string): (steps: seq<Step>)
    ensures |steps| == 3
    ensures steps[0] == Chmod(PosixPath.Join(scratchDir, KEY_OBJECT), OWNER_READ_WRITE)
    ensures steps[1] == WriteInventory(PosixPath.Join(scratchDir, INVENTORY_FILE), BuildInventory(PosixPath.Join(scratchDir, KEY_OBJECT)))
    ensures steps[1].inventory.vars.ansibleSshPrivateKeyFile == PosixPath.Join(scratchDir, KEY_OBJECT)
    ensures steps[2].Launch? && steps[2].invocation.cwd == scratchDir && steps[2].invocation.timeoutSeconds == TIMEOUT_SECONDS
    ensures steps[2].invocation.argv == PlaybookArgv(python, PosixPath.Join(scratchDir, INVENTORY_FILE), playbookName, jclFile)
  {
    var keyPath := PosixPath.Join(scratchDir, KEY_OBJECT);
    var inventoryPath := PosixPath.Join(scratchDir, INVENTORY_FILE);
    [Chmod(keyPath, OWNER_READ_WRITE),
     WriteInventory(inventoryPath, BuildInventory(keyPath)),
     Launch(Invocation(PlaybookArgv(python, inventoryPath, playbookName, jclFile), scratchDir, TIMEOUT_SECONDS))]
  }

  /** The warning logged for a result file that is not valid JSON. */
  function ParseWarning(jobId: string, error: string): string
  {
    "[" + jobId + "] Could not parse jcl_result.json: " + error
  }

  /** The parsed result file, when there is one. */
  function ResultValue(resultFile: ResultFile): Option<Json>
  {
    if resultFile.Parsed? then Some(resultFile.value) else None
  }

  /**
   * The `try` body of `run_jcl`, inside the fresh scratch directory
   * `scratchDir`. `run` is what the engine did and `resultFile` what it left
   * behind.
   */
  method RunInScratch(playbookName: string, jclFile: string, s3Prefix: string, jobId: string, scratchDir: string,
                      python: string, store: set<string>, failures: map<Download, string>, run: ProcessRun, resultFile: ResultFile)
    returns (outcome: Result<RunResponse, RunError>, steps: seq<Step>)
    // the downloads run in order until one raises; its exception ends the run
    ensures var downloads := Downloads(NormalizePrefix(s3Prefix), scratchDir, playbookName, jclFile);
      var n := FirstFailure(store, failures, downloads);
      && FetchedInOrder(steps, downloads, n)
      && (n < 3 ==> outcome == Failure(OtherException(DownloadError(store, failures, downloads[n]).value)) && |steps| == n)
    // with every download done, the key is restricted, the inventory written and the engine launched
    ensures var downloads := Downloads(NormalizePrefix(s3Prefix), scratchDir, playbookName, jclFile);
      FirstFailure(store, failures, downloads) == 3 ==>
        && |steps| >= 6 && steps[3..6] == Preparation(scratchDir, python, playbookName, jclFile)
        && (run.TimedOut? ==> outcome == Failure(TimeoutExpired) && |steps| == 6)
        && (run.RaisedValueError? || run.Crashed? ==> outcome == Failure(OtherException(run.message)) && |steps| == 6)
        && (run.Completed? && resultFile.Unreadable? ==> outcome == Failure(OtherException(resultFile.error)) && |steps| == 6)
        && (run.Completed? && !resultFile.Unreadable? ==>
              outcome == Success(ShapeResponse(jobId, playbookName, jclFile, run, ResultValue(resultFile))))
        && (run.Completed? && resultFile.Malformed? ==> steps[6..] == [LogWarning(ParseWarning(jobId, resultFile.error))])
        && (run.Completed? && (resultFile.Absent? || resultFile.Parsed?) ==> |steps| == 6)
  {
    var prefix := NormalizePrefix(s3Prefix);
    var downloads := Downloads(prefix, scratchDir, playbookName, jclFile);
    FirstFailureOfThree(store, failures, downloads);
    steps := [];
    var error := DownloadError(store, failures, downloads[0]);
    if error.Some? {
      return Failure(OtherException(error.value)), steps;
    }
    steps := steps + [Fetched(S3_BUCKET, downloads[0].key, downloads[0].dest)];
    error := DownloadError(store, failures, downloads[1]);
    if error.Some? {
      return Failure(OtherException(error.value)), steps;
    }
    steps := steps + [Fetched(S3_BUCKET, downloads[1].key, downloads[1].dest)];
    error := DownloadError(store, failures, downloads[2]);
    if error.Some? {
      return Failure(OtherException(error.value)), steps;
    }
    var keyPath := downloads[2].dest;
    steps := steps + [Fetched(S3_BUCKET, KEY_OBJECT, keyPath)];
    var rest;
    outcome, rest := RunPrepared(jobId, scratchDir, python, playbookName, jclFile, run, resultFile);
    assert (steps + rest)[3..6] == rest[..3];
    steps := steps + rest;
  }

  /**
   * The part of the `try` body after the downloads: restrict the key, write
   * the inventory, launch the engine, read its result file, shape the reply.
   */
  method RunPrepared(jobId: string, scratchDir: string, python: string, playbookName: string, jclFile: string,
                     run: ProcessRun, resultFile: ResultFile)
    returns (outcome: Result<RunResponse, RunError>, steps: seq<Step>)
    ensures |steps| >= 3 && steps[..3] == Preparation(scratchDir, python, playbookName, jclFile)
    ensures run.TimedOut? ==> outcome == Failure(TimeoutExpired) && |steps| == 3
    ensures run.RaisedValueError? || run.Crashed? ==> outcome == Failure(OtherException(run.message)) && |steps| == 3
    ensures run.Completed? && resultFile.Unreadable? ==> outcome == Failure(OtherException(resultFile.error)) && |steps| == 3
    ensures run.Completed? && !resultFile.Unreadable? ==>
      outcome == Success(ShapeResponse(jobId, playbookName, jclFile, run, ResultValue(resultFile)))
    ensures run.Completed? && resultFile.Malformed? ==> steps[3..] == [LogWarning(ParseWarning(jobId, resultFile.error))]
    ensures run.Completed? && (resultFile.Absent? || resultFile.Parsed?) ==> |steps| == 3
  {
    var keyPath := PosixPath.Join(scratchDir, KEY_OBJECT);
    steps := [Chmod(keyPath, OWNER_READ_WRITE)];

    var inventoryPath := PosixPath.Join(scratchDir, INVENTORY_FILE);
    steps := steps + [WriteInventory(inventoryPath, BuildInventory(keyPath))];

    var argv := PlaybookArgv(python, inventoryPath, playbookName, jclFile);
    steps := steps + [Launch(Invocation(argv, scratchDir, TIMEOUT_SECONDS))];
    match run {
      case TimedOut =>
        return Failure(TimeoutExpired), steps;
      case RaisedValueError(message) =>
        return Failure(OtherException(message)), steps;
      case Crashed(message) =>
        return Failure(OtherException(message)), steps;
      case Completed(_, _, _) =>
    }

    var jclResult: Option<Json> := None;
    match resultFile {
      case Absent =>
      case Parsed(value) =>
        jclResult := Some(value);
      case Malformed(error) =>
        steps := steps + [LogWarning(ParseWarning(jobId, error))];
      case Unreadable(error) =>
        return Failure(OtherException(error)), steps;
    }
    outcome := Success(ShapeResponse(jobId, playbookName, jclFile, run, jclResult));
  }

  /** `POST /run-jcl`: the run, with its exceptions turned into HTTP errors. */
  method RunJcl(playbookName: string, jclFile: string, s3Prefix: string, jobId: string, scratchDir: string,
                python: string, store: set<string>, failures: map<Download, string>, run: ProcessRun, resultFile: ResultFile)
    returns (reply: Reply<RunResponse>, steps: seq<Step>)
    // a failed download is a server error carrying its message, and nothing after it happens
    ensures var downloads := Downloads(NormalizePrefix(s3Prefix), scratchDir, playbookName, jclFile);
      var n := FirstFailure(store, failures, downloads);
      && FetchedInOrder(steps, downloads, n)
      && (n < 3 ==> reply == HttpError(500, DownloadError(store, failures, downloads[n]).value) && |steps| == n)
    ensures var downloads := Downloads(NormalizePrefix(s3Prefix), scratchDir, playbookName, jclFile);
      FirstFailure(store, failures, downloads) == 3 ==>
        && |steps| >= 6 && steps[3..6] == Preparation(scratchDir, python, playbookName, jclFile)
        && (run.TimedOut? ==> reply == HttpError(408, TIMEOUT_DETAIL))
        && (run.RaisedValueError? || run.Crashed? ==> reply == HttpError(500, run.message))
        && (run.Completed? && resultFile.Unreadable? ==> reply == HttpError(500, resultFile.error))
        && (run.Completed? && !resultFile.Unreadable? ==>
              reply == Ok(ShapeResponse(jobId, playbookName, jclFile, run, ResultValue(resultFile))))
        && (run.Completed? && resultFile.Malformed? ==> steps[6..] == [LogWarning(ParseWarning(jobId, resultFile.error))])
        && (!(run.Completed? && resultFile.Malformed?) ==> |steps| == 6)
  {
    var outcome;
    outcome, steps := RunInScratch(playbookName, jclFile, s3Prefix, jobId, scratchDir, python, store, failures, run, resultFile);
    reply := match outcome
      case Success(response) => Ok(response)
      case Failure(error) => ErrorReply(error);
  }
}
