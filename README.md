# Playbook runners — a Dafny model

This project models the request-to-result path of the two playbook runners in
the automation repository. It covers the gateway's `POST /playbooks/execute` and
the object-store runner's `POST /run-jcl`. The filesystem, the object store, the
child process, the clock and the UUID generator are inputs to the model, not
real I/O.

- **Gateway** (`gateway.dfy`, from `apps/automation-gateway/src/main.py`)
  - `ExecutePlaybook` checks that the playbook exists, then that the inventory exists. Each check resolves the name with `os.path.join` under the fixed Ansible directory.
  - It builds the `ansible-playbook` argument vector. `-e` is added only for non-empty extra variables.
  - It launches the command, classifies the exit code, and counts the completed run.
  - It brackets all of this with the in-flight gauge.
  - The three Prometheus instruments are a `Metrics` class with map and integer fields.
  - The method also returns its side effects in order, as a list of steps:
    - the gauge rise;
    - the launch, with the gauge value while the process runs;
    - the counter and histogram updates;
    - the gauge fall.
  - `Execute` maps the exceptions to HTTP codes.
  - `ListAvailablePlaybooks` and `GetPlaybookInfo` are the listing and content endpoints, written as functions over the filesystem.
- **Object-store runner** (`jcl_runner.dfy`, from `apps/automation-api/app/degraded.py`)
  - It normalises the key prefix and builds the three object keys.
  - Each of the three downloads can raise. It raises the object store's 404 error when the key is missing, and otherwise any other exception the caller supplies for it, such as a destination under a directory that does not exist.
  - It builds the inventory (a typed record that mirrors the nested dictionary) and the fixed argument vector.
  - `RunInScratch` is the `try` body. It returns its outcome and the steps it took:
    - the fetches;
    - the `chmod` of the key;
    - the inventory write;
    - the launch;
    - the parse warning.
  - `RunJcl` adds the `except` clauses.
  - The object store is the set of keys the bucket holds, plus a map from a download (key and destination) to the exception it raises.
  - The engine's run is a `ProcessRun` value: completed with an exit code and output, timed out, raised a `ValueError`, or raised anything else. The gateway re-raises a `ValueError` from the run as a client error (400). The runner turns every exception other than the timeout into a 500.
  - The result file is absent, parsed JSON, malformed or unreadable.
- **Support modules**
  - `strings.dfy`: Python's `join`, `split`, `partition`, `lstrip`, `endswith`, and `sorted` on strings.
  - `posix_path.dfy`: `os.path.join`.
  - `extra_vars.dfy`: the `k=v` rendering of extra variables. It also holds a key=value reader as an independent check of that rendering.
  - `environment.dfy`: filesystem nodes, process outcome, invocation, HTTP reply.
  - `results.dfy`: `Option` and `Result`.

The model follows the code in two places where a reader might expect otherwise:

- **Prefix separator.** One might expect that joining a prefix and a key leaves exactly one separator (`"teamA/"` with `jcl/FOO` giving `teamA/jcl/FOO`). The code at `apps/automation-api/app/degraded.py:32` always appends `/` to a non-empty prefix. So `"teamA/"` becomes `"teamA//"`, as `JclRunner.TrailingSlashIsDoubled` proves. A prefix made only of slashes becomes the empty prefix.
- **Job lifecycle.** One might expect a job ledger with pending, running and finished states. Neither runner has one: both run synchronously inside the request and return the result directly. So the model has no job states.

The model also proves three properties of what the code does as written:

- `ExtraVars.SpaceInValueAddsBinding`: a value containing a space comes back as an extra variable when the `-e` argument is read by `ExtraVars.Parse`, a plain split on spaces and on the first `=`. Ansible's own `-e` parser (quotes, `@file`, arguments starting with `{` or `[`) is not part of this model. `JclRunner.JclFileArgument` gives the `jcl_file=` argument the same reading.
- `PosixPath.Join`: an absolute playbook or JCL name replaces the base directory, so the file is looked up or written outside that directory.
- `Gateway.TruncateIdempotent`: truncating content that has already been truncated changes nothing.

## Model

| member | source | states |
|---|---|---|
| `Gateway.BuildCommand` | apps/automation-gateway/src/main.py:104-114 | The vector starts with `ansible-playbook -i <inventory> <playbook>`. `-e` plus one joined string follows iff the extra variables are present and non-empty; otherwise the vector has exactly 4 elements. |
| `Gateway.HasExtraVars` | apps/automation-gateway/src/main.py:112 | Python truthiness of `extra_vars`: present and non-empty. |
| `ExtraVars.Render` | apps/automation-gateway/src/main.py:113 | Splitting the rendered argument on spaces gives back one `key=value` token per binding. This holds for non-empty bindings whose keys have no space or `=` and whose values have no space. |
| `Gateway.DefaultRequestCommand` | apps/automation-gateway/src/main.py:48-60 | An empty request body launches exactly `ansible-playbook -i inventory.yml create_hamlet_jcl.yml`. |
| `ExtraVars.Assignments` | apps/automation-gateway/src/main.py:113 | One `k=v` token per binding, in the map's iteration order. |
| `ExtraVars.RenderParse` | apps/automation-gateway/src/main.py:113 | Reading the space-joined `k=v` string back as key=value pairs gives the original bindings in order. This holds for non-empty bindings whose keys have no space or `=` and whose values have no space. |
| `ExtraVars.SpaceInValueAddsBinding` | apps/automation-gateway/src/main.py:113 | A value containing ` key2=value2` is read back by the plain space-separated reader `ExtraVars.Parse` as two bindings. |
| `Gateway.StatusLabel` | apps/automation-gateway/src/main.py:133 | The counter label is `"success"` exactly when the run succeeded, else `"failed"`. |
| `Gateway.Metrics.constructor` | apps/automation-gateway/src/main.py:29-45 | Instruments start empty, with the gauge at 0. |
| `Gateway.Metrics.IncQueueDepth` | apps/automation-gateway/src/main.py:91 | The gauge goes up by one; counters and histogram are unchanged. |
| `Gateway.Metrics.DecQueueDepth` | apps/automation-gateway/src/main.py:157-158 | The gauge goes down by one; counters and histogram are unchanged. |
| `Gateway.Metrics.RecordCompletion` | apps/automation-gateway/src/main.py:132-135 | Exactly the (playbook, status) counter rises by one, and exactly one duration is appended for the playbook. |
| `Gateway.ExecutePlaybook` | apps/automation-gateway/src/main.py:86-158 | The gauge returns to its entry value on every path. The step trace opens with the gauge rise and closes with the gauge fall, each exactly once. A missing playbook fails before the inventory is checked, and both validation errors launch nothing. A launch uses the required command, the Ansible directory and the 1800 s timeout, with the gauge at entry+1. A completed run has `success` iff exit code 0, passes code and output through, and bumps the (playbook, status) counter and the histogram once each. A timeout becomes `ValueError`. A `ValueError` raised by the run stays a `ValueError`, and any other exception from the run is re-raised as it is. On all these paths, as after a validation error, no counter or histogram moves. |
| `Gateway.CompletedResponse` | apps/automation-gateway/src/main.py:128-149 | `success` holds iff exit code 0. Exit code, output, execution id, playbook and duration pass through. |
| `Gateway.ToReply` | apps/automation-gateway/src/main.py:240-248 | A response passes through. `ValueError` becomes 400 and any other exception 500. The detail ends with the exception text. |
| `Gateway.Execute` | apps/automation-gateway/src/main.py:233-248 | Validation failures give 400 with the not-found message and launch nothing. A timeout and a `ValueError` raised by the run give 400. Any other exception gives 500 with the `Error executing playbook:` prefix. A completed run gives 200 with the full response, and the (playbook, status) counter and the histogram move once each. On every other path they stay unchanged. The gauge is balanced, and the trace is the same as for `ExecutePlaybook`. |
| `Gateway.PlaybookFiles` | apps/automation-gateway/src/main.py:261 | Each name occurs as often as in the listing if it ends in `.yml`, and not at all otherwise. |
| `Gateway.IsPlaybookFile` | apps/automation-gateway/src/main.py:261 | A directory entry is a playbook when its name ends in `.yml`. |
| `Gateway.ListPlaybooks` | apps/automation-gateway/src/main.py:261-266 | The names are exactly the `.yml` entries, sorted ascending and a permutation of the filtered listing. `count` equals the list length. |
| `Gateway.ListingIgnoresDirectoryOrder` | apps/automation-gateway/src/main.py:261-265 | Two listings of the same names in any order give the same result. |
| `Gateway.ListAvailablePlaybooks` | apps/automation-gateway/src/main.py:251-271 | A missing directory gives 404. An unlistable one gives 500 with the error. Otherwise the result is the sorted `.yml` listing. |
| `Gateway.TruncateContent` | apps/automation-gateway/src/main.py:294 | Content up to 1000 characters is unchanged. Longer content becomes its first 1000 characters plus `...`. The result is never longer than 1003. |
| `Gateway.TruncateIdempotent` | apps/automation-gateway/src/main.py:294 | Truncating already shown content changes nothing. |
| `Gateway.GetPlaybookInfo` | apps/automation-gateway/src/main.py:274-298 | A path that does not exist gives 404. A readable file gives its name, joined path, size and truncated content. Any other existing path gives 500 with the read-error prefix. For an unreadable file the detail is the prefix plus the error text. For a directory that can be opened it is the prefix plus `[Errno 21] Is a directory:` and the path's `repr`. For a directory that cannot be opened it is the prefix plus the error `open` raised. |
| `PosixPath.Join` | apps/automation-gateway/src/main.py:95 | An absolute name replaces the base, so a playbook or JCL name can point outside the directory. The joined path is at least as long as the name, and at most the base, one separator and the name. |
| `Strings.Repr` | apps/automation-gateway/src/main.py:296-298 | The text is wrapped in `"` when it holds `'` and no `"`, and in `'` otherwise. A text without that quote, backslashes or control characters appears unchanged between the quotes. |
| `Strings.EscapeChar` | apps/automation-gateway/src/main.py:296-298 | A character is written as itself unless it is the quote, a backslash or a control character; those are escaped. |
| `PosixPath.JoinShape` | apps/automation-gateway/src/main.py:100 | A relative name lands under the base. No `/` is added when the base is empty or already ends in `/`, and exactly one is added otherwise, so the length is fixed. The joined path always ends with the name. |
| `Strings.SortStrings` | apps/automation-gateway/src/main.py:265 | `sorted` on strings: the result is ordered by code point and is a permutation of the input. |
| `Strings.SortedUnique` | apps/automation-gateway/src/main.py:265 | Only one sorted arrangement of a multiset of strings exists. |
| `Strings.LStrip` | apps/automation-api/app/degraded.py:32 | `lstrip` removes only leading occurrences of the character, and the rest does not start with it. |
| `JclRunner.NormalizePrefix` | apps/automation-api/app/degraded.py:32 | The empty prefix gives `""`. The result is empty iff the prefix is all `/`. A non-empty result never starts with `/` and always ends with `/`. |
| `JclRunner.PrefixIsStrippedPlusSlash` | apps/automation-api/app/degraded.py:32 | A prefix with any non-`/` character becomes that prefix with its leading `/` stripped and one `/` appended. |
| `JclRunner.TrailingSlashIsDoubled` | apps/automation-api/app/degraded.py:32 | `"teamA/"`-shaped prefixes become `"teamA//"`: the trailing separator is doubled. |
| `JclRunner.KeysAreDistinct` | apps/automation-api/app/degraded.py:40-42 | Playbook key, JCL key and key-file object are three different objects for every prefix and name. |
| `JclRunner.EmptyPrefixKeys` | apps/automation-api/app/degraded.py:40-41 | With no prefix the keys are `ansible/playbooks/<name>` and `ansible/jcl/<file>`. |
| `JclRunner.PlaybookKey` | apps/automation-api/app/degraded.py:40 | The playbook's key starts with the prefix and ends with the playbook name. |
| `JclRunner.JclKey` | apps/automation-api/app/degraded.py:41 | The JCL member's key starts with the prefix and ends with the member name. |
| `JclRunner.DefaultRunKeys` | apps/automation-api/app/degraded.py:28-41 | With every parameter at its default, the keys are `ansible/playbooks/create_hamlet_jcl.yml` and `ansible/jcl/GENER3`. |
| `JclRunner.Downloads` | apps/automation-api/app/degraded.py:40-42 | Three downloads, in source order. Each file goes to the scratch dir joined with its own name, and the key goes to `mainframe_key.pem` there. |
| `JclRunner.FirstFailure` | apps/automation-api/app/degraded.py:40-42 | The number of downloads that succeed before the first that raises: all earlier ones raise nothing, and the one at that index raises. |
| `JclRunner.BuildInventory` | apps/automation-api/app/degraded.py:46-56 | The host's private-key file is the given scratch key path. |
| `JclRunner.InventoryVariesOnlyInKeyPath` | apps/automation-api/app/degraded.py:46-56 | Two inventories agree in every field except the key path, and are equal iff the key paths are. |
| `JclRunner.PlaybookArgv` | apps/automation-api/app/degraded.py:68 | Eight arguments: the interpreter running `-m ansible.cli.playbook`, `-i` with the inventory, the playbook, and `-e` with the rendering of the single binding `jcl_file`. |
| `JclRunner.Preparation` | apps/automation-api/app/degraded.py:43-71 | After the downloads come the `chmod 0o600` of the downloaded key, then the write of the inventory file in the scratch dir, naming that key. Last is the launch of exactly the engine's command line on that inventory, in the scratch dir, with the 1800 s timeout. |
| `JclRunner.JclFileArgument` | apps/automation-api/app/degraded.py:68 | The `-e` value reads back as the single binding `jcl_file` when the name has no space. |
| `JclRunner.ShapeResponse` | apps/automation-api/app/degraded.py:88-98 | `status` is `"completed"` and `success` holds iff exit code 0. Code, output and the request names pass through. `jcl_result` appears iff the parsed value is truthy. |
| `JclRunner.Truthy` | apps/automation-api/app/degraded.py:97 | Python truthiness of the decoded result. `null`, `false`, zero, and the empty string, list and object are false. `NaN` and the infinities, which `json.load` accepts, are true. |
| `JclRunner.ResultNeverDecidesSuccess` | apps/automation-api/app/degraded.py:79-97 | Replies differing only in the result file differ only in `jcl_result`. |
| `JclRunner.ErrorReply` | apps/automation-api/app/degraded.py:100-107 | A timeout gives 408 `Playbook timed out`. An `HTTPException` passes unchanged. Anything else gives 500 with its message. |
| `JclRunner.RunInScratch` | apps/automation-api/app/degraded.py:37-98 | The downloads run in order, and the first one that raises ends the run with its exception. The steps taken are exactly the downloads before it. With all three done, `chmod 0o600` on the key comes right after them, then the inventory write, then the launch in the scratch dir with a 1800 s timeout. A timeout, any exception from the run or an unreadable result file end the run with that error. A malformed result file logs a warning and gives no `jcl_result`. Otherwise the reply is the shaped response with the parsed result. |
| `JclRunner.RunPrepared` | apps/automation-api/app/degraded.py:43-98 | The steps start with the key restriction, inventory write and launch. A timeout, any exception from the run or an unreadable result end it with that error. A malformed result adds one warning step and gives no `jcl_result`. Otherwise the outcome is the shaped response with the parsed result. |
| `JclRunner.RunJcl` | apps/automation-api/app/degraded.py:26-107 | A failed download gives 500 with its exception's text, after exactly the downloads before it. A timeout gives 408. Any other exception from the run, or an unreadable result file, gives 500 with its text. Otherwise the handler returns the shaped response (`success` iff exit code 0, output and names passed through, `jcl_result` only when truthy). The step trace is as for `RunInScratch`. |

## Left out

- Job registry, lifecycle states and timestamps: neither runner keeps job records, so there is nothing of the kind to model.
- Clock and identifiers: `uuid4`, the `datetime` readings and the float duration (`apps/automation-gateway/src/main.py:88-89, 128-130`) and the 8-character job id are parameters.
- Process behaviour: the process outcome is a parameter, independent of the invocation that is recorded. In the runner, the captured output is read back from files. A decoding failure there is represented by the run raising a `ValueError`, which gives the same 500.
- Object store: the text of the missing-key error is the fixed 404 client-error message. Any other download failure is an input, with the text it carries.
- `JclRunner.RunPrepared`: the `chmod`, the inventory write and the opening of the output capture files in the fresh scratch directory are assumed to succeed.
- Files and directories: scratch-directory creation and removal, the output capture files, and `yaml.dump` of the inventory are left out; the inventory is a structured value.
- Logging: only the result-file parse warning is recorded, as a step.
- JSON parsing is an input: the result file arrives already classified as parsed, malformed or unreadable.
- Extra variables: the model takes the `str(k)`, `str(v)` renderings, not arbitrary Python values.
- Prometheus: library internals, the HTTP instrumentator and `/metrics` are left out. Counters and the gauge are plain integers, and the histogram is a list of observations.
- Startup, `/health` and `/` endpoints (they shell out to `ansible-playbook --version` or return constants), and the async/concurrency aspects of the handlers.
- `Gateway.GetPlaybookInfo`: an `os.path.getsize` failure after a successful read is not modelled. In the `repr` of a directory's path, non-ASCII characters that Python counts as unprintable are not escaped.
- `JclRunner.RunJcl`: the framework's rendering of the returned dict as JSON is not modelled; a `jcl_result` holding `NaN` or an infinity makes that rendering raise, and the client then gets 500 rather than the shaped response.
- `apps/fastapi/src/main.py` and `apps/automation-api/app/main.py` are not part of this model.
