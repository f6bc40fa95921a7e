# tiup playground control commands and component launch, in Dafny

This project models two parts of tiup, the TiDB component manager:

- **Playground control commands** (`components/playground/command.go`). A
  running playground cluster is steered by `Command` values sent to its
  control address. `buildCommands` expands the boot options into one command
  per desired instance, kind by kind in the fixed order pd, tikv, pump,
  tiflash, tidb, ticdc, drainer. `scaleIn`, `partition` and `restart` build
  one command per target pid; the last two read each pid with `strconv.Atoi`
  and ignore its error. `display` sends a single command. All of them go
  through `sendCommandsAndPrintResult`, which sends in order and stops at the
  first failed request or failed copy of the reply.
- **Running a component** (`cmd/run.go`). `downloadIfMissing` picks the
  version: the requested one, or else the highest installed one. It downloads
  that version when it is not installed, adopting the manifest's latest
  version when none was settled on. `launchComponent` chooses the working
  directory: the inherited override, or else `DataParentDir/name` under the
  profile root, where an empty name becomes `base62Name()` of the clock. It
  starts the binary with two extra environment entries and returns a process
  record. The run command then persists that record and forwards termination
  signals to the child; tidb is always sent SIGKILL.

Modules:

| file | module | what it holds |
|---|---|---|
| `common.dfy` | `Common` | `Option`, `Result`, the 64-bit integer bounds |
| `strconv.dfy` | `Strconv` | Go's `strconv.Itoa` and `strconv.Atoi` on 64-bit `int`, with their round trip |
| `playground_command.dfy` | `PlaygroundCommand` | command types, `Command`, `buildCommands` as a function and as the source's nested loop, the per-pid builders, the control address |
| `playground_dispatch.dfy` | `PlaygroundDispatch` | the transport as a class that records requests and output, the fail-fast send loop, `scaleIn`, `scaleOut`, `display`, `partition`, `restart` as written and with the corrected address |
| `run_version.dfy` | `RunVersion` | version resolution (running maximum and membership loops), the profile and the repository as classes, `downloadIfMissing` |
| `run_launch.dfy` | `RunLaunch` | `base62Name` and its decoder, the working directory, the child environment, `launchComponent`, the persist condition, signal forwarding, the run outcome |

Inputs the source reads from the outside world become parameters:

- the playground port found by `targetTag` is an `Option<int>`;
- the HTTP exchange for one command is an `answer` function of the transport,
  given every request made before it, so a repeated command may be answered
  differently;
- the installed versions, the manifests, and whether a save or a download
  succeeds are functions held by the `Profile` and `Repository` objects;
- the semver order is a `Comparator`;
- the process environment, the clock, `MkdirAll` and `Start` are fields of a
  `Host` value.

## Model

| member | source | states |
|---|---|---|
| `Strconv.Atoi` | components/playground/command.go:256 | the parsed value is always a 64-bit integer; a syntax error gives 0 and a range error gives the 64-bit bound with the input's sign |
| `Strconv.AtoiItoa` | components/playground/command.go:256 | reading back the decimal form of any 64-bit integer gives that integer and no error |
| `Strconv.AtoiDigits` | components/playground/command.go:256 | an optional sign and decimal digits, leading zeros allowed, read as the value they denote when it fits in 64 bits, and otherwise as the nearer bound with a range error |
| `Strconv.ScanUintSyntax` | components/playground/command.go:256 | the digit scan reports a syntax error at the first non-digit, provided the digits before it have not already overflowed 64 unsigned bits |
| `Strconv.AtoiSyntax` | components/playground/command.go:256 | the empty string, a bare sign, or a sign and digits followed by a non-digit ("12x", "-x", "+x") before the digits exceed 64 unsigned bits, read as 0 with a syntax error |
| `Strconv.ScanUintRangeFirst` | components/playground/command.go:256 | the digit scan reports a range error at the digit that takes the value past 64 unsigned bits, whatever follows it |
| `Strconv.AtoiRange` | components/playground/command.go:256 | a sign and digits that exceed 64 unsigned bits read as the bound with that sign and a range error, even when a non-digit follows ("-99999999999999999999x" gives the minimum) |
| `PlaygroundCommand.WireNamesDistinct` | components/playground/command.go:34-40 | the five command types go on the wire as five different strings |
| `PlaygroundCommand.AppendInstances` | components/playground/command.go:65-73 | the inner loop appends exactly as many copies of the kind's command as its count asks for, none when the count is 0 or less |
| `PlaygroundCommand.BuildCommandsLoop` | components/playground/command.go:50-76 | the nested loop over the kinds and their instance counts yields exactly the specified command list `BuildCommands` |
| `PlaygroundCommand.BuildCommandsCount` | components/playground/command.go:64-74 | the number of commands built is the sum of the instance counts of the seven kinds, a count of 0 or less adding nothing |
| `PlaygroundCommand.BuildCommandsShape` | components/playground/command.go:66-70 | every command built has the given type, pid 0, and the name and unchanged config of a kind whose count is positive |
| `PlaygroundCommand.BuildCommandsOrdered` | components/playground/command.go:51-62 | commands appear in the kind order pd, tikv, pump, tiflash, tidb, ticdc, drainer |
| `PlaygroundCommand.BuildCommandsContiguous` | components/playground/command.go:64-74 | the commands of one kind form a contiguous block |
| `PlaygroundCommand.BuildCommandsPerKind` | components/playground/command.go:64-74 | each kind contributes exactly as many commands as its count asks for |
| `PlaygroundCommand.ScaleInCommands` | components/playground/command.go:165-172 | one scale-in command per pid, in input order, with the pid unchanged |
| `PlaygroundCommand.ParsedTargetCommands` | components/playground/command.go:254-262 | one command per argument, in order, with the pid read by Atoi and its error ignored |
| `PlaygroundCommand.ParsedTargetPid` | components/playground/command.go:256-259 | an argument of an optional sign and digits (such as "007") targets the value it denotes, or the nearer 64-bit bound when that does not fit; an empty or bare-sign argument, or one with a non-digit after its digits before those digits exceed 64 unsigned bits, targets pid 0 instead of being rejected |
| `PlaygroundCommand.ControlAddressSplits` | components/playground/command.go:174 | the scale-in address is the loopback host, one colon, then text that reads back as the port |
| `PlaygroundCommand.AddressWithoutColonHasNoPort` | components/playground/command.go:263 | the address partition builds has no colon at all and differs from the control address; port 9527 gives "127.0.0.19527" |
| `PlaygroundDispatch.Transport.Request` | components/playground/command.go:208-214 | one request is recorded with its address; its reply is the playground's answer given all earlier requests, and the reply's written bytes are appended to the output |
| `PlaygroundDispatch.FirstFailureSpec` | components/playground/command.go:207-218 | at the first failing position every command before it is fully answered and the one at it is not, each reply taken after the requests before it |
| `PlaygroundDispatch.FirstFailureAt` | components/playground/command.go:207-218 | a position with all earlier commands answered and itself failing is the first failure, and the loop sends exactly up to it |
| `PlaygroundDispatch.SendCommandsAndPrintResult` | components/playground/command.go:206-221 | requests and output grow by exactly the commands up to and including the first failure, in order, and the result is the error of that failure or none |
| `PlaygroundDispatch.DispatchSucceedsIff` | components/playground/command.go:206-221 | a batch returns no error if and only if every command is answered and copied in full |
| `PlaygroundDispatch.DispatchFailFast` | components/playground/command.go:207-217 | on failure the failing command is the last one sent, every command before it succeeded, and none after it is sent |
| `PlaygroundDispatch.ScaleInStopsAtFirstFailure` | components/playground/command.go:207-211 | with targets 111 and 222 and a failed first request, only 111 is sent and the request error is returned |
| `PlaygroundDispatch.RepeatedCommandCanFail` | components/playground/command.go:207-218 | a playground that answers only its first request delivers the first of two identical commands and fails the second, so both are sent, the output is the first reply and a request error is returned |
| `PlaygroundDispatch.ScaleIn` | components/playground/command.go:159-176 | without a playground nothing is sent; otherwise the scale-in batch goes to the control address under the fail-fast rule |
| `PlaygroundDispatch.ScaleOut` | components/playground/command.go:178-191 | with no instances requested nothing is sent and 0 is returned; otherwise the built batch is sent and its size, the total requested, is returned whatever the send gives |
| `PlaygroundDispatch.Display` | components/playground/command.go:193-204 | a single display command is sent to the control address |
| `PlaygroundDispatch.SendParsedTargets` | components/playground/command.go:249-265 | one command per argument, pid read by Atoi, is sent under the fail-fast rule to the address built from the port |
| `PlaygroundDispatch.Partition` | components/playground/command.go:249-265 | the partition batch is sent to the host and port joined without a colon, as written; without a playground nothing is sent |
| `PlaygroundDispatch.Restart` | components/playground/command.go:277-294 | the restart batch is sent to the host and port joined without a colon, as written; without a playground nothing is sent |
| `PlaygroundDispatch.CorrectedPartition` | components/playground/command.go:249-265 | the partition batch is sent to the control address, as scale-in's is; without a playground nothing is sent |
| `PlaygroundDispatch.CorrectedRestart` | components/playground/command.go:277-294 | the restart batch is sent to the control address, as scale-in's is; without a playground nothing is sent |
| `RunVersion.MaxVersionIsMaximum` | cmd/run.go:218-223 | the chosen version is installed and no installed version is greater under the comparator |
| `RunVersion.LatestInstalled` | cmd/run.go:218-223 | the loop standing for sort-then-take-last returns the specified maximum |
| `RunVersion.IsInstalled` | cmd/run.go:226-235 | the membership loop with early exit answers true if and only if the version is in the list |
| `RunVersion.ResolveVersion` | cmd/run.go:218-235 | the resolution steps give the specified version and download decision |
| `RunVersion.ResolveLatestInstalled` | cmd/run.go:218-223 | with no version asked for and something installed, the maximum installed version is used and nothing is downloaded, unless that version is the empty string |
| `RunVersion.ResolveRequested` | cmd/run.go:225-235 | a requested version is kept and is downloaded if and only if it is not installed |
| `RunVersion.ResolveNothingInstalled` | cmd/run.go:225 | with no version asked for and nothing installed, a download is needed and no version is settled |
| `RunVersion.ResolveNoDownloadIsInstalled` | cmd/run.go:225-235 | nothing is downloaded if and only if the resolved version is non-empty and installed |
| `RunVersion.ResolveExample` | cmd/run.go:218-223 | among v4.9.0, v5.0.0 and v5.1.0 installed, v5.1.0 is run without a download |
| `RunVersion.Profile.SaveVersions` | cmd/run.go:243 | the manifest save is recorded and reports the profile's outcome |
| `RunVersion.Repository.ComponentVersions` | cmd/run.go:239 | a manifest fetch is recorded and returns the repository's manifest |
| `RunVersion.Repository.DownloadComponent` | cmd/run.go:252 | a download is recorded with its directory and spec |
| `RunVersion.FetchOutcomeSuccess` | cmd/run.go:237-258 | a successful fetch returns the binary path of a version that was installed, or was downloaded after its manifest was saved |
| `RunVersion.FetchNothingInstalled` | cmd/run.go:247-252 | with nothing installed and no version asked for, the manifest's latest version is downloaded and looked up; a failed download is returned as that error |
| `RunVersion.DownloadIfMissing` | cmd/run.go:208-259 | the result is the specified fetch outcome; nothing is fetched or downloaded unless a download is needed; then one manifest fetch, a save if a manifest came back, and at most one download with spec "component:version" happen |
| `RunLaunch.Symbol` | cmd/run.go:146 | the symbol for each digit below 62 is a base-62 character that decodes back to that digit |
| `RunLaunch.Base62DigitsAt` | cmd/run.go:146 | the alphabet constant has 62 symbols, in the order 0-9, A-Z, a-z, each the symbol of its position |
| `RunLaunch.Base62Name` | cmd/run.go:144-155 | the digit loop yields the base-62 encoding of the clock value |
| `RunLaunch.EncodeShape` | cmd/run.go:144-155 | a name uses only the 62 symbols, is empty exactly for 0 and below, and never starts with '0' |
| `RunLaunch.DecodeEncode` | cmd/run.go:144-155 | decoding a name gives back the number, and 0 for numbers at or below 0 |
| `RunLaunch.EncodeDecode` | cmd/run.go:149-153 | every base-62 string without a leading '0' is the name of exactly one positive number; the empty string is the name of every number at or below 0 |
| `RunLaunch.WorkDir` | cmd/run.go:163-170 | the working directory chosen is never empty |
| `RunLaunch.ChildEnv` | cmd/run.go:176-186 | the child's environment extends the inherited one by two entries; in it the two overlay keys are bound to the profile root and the working directory, and every other key keeps its inherited value |
| `RunLaunch.EntryOtherKey` | cmd/run.go:176-178 | an entry for one key never matches a different key when neither key holds '=' |
| `RunLaunch.NestedLaunchKeepsDir` | cmd/run.go:163-186 | a component launched from inside a launched one picks the same working directory, whatever name it is given |
| `RunLaunch.LaunchComponent` | cmd/run.go:157-206 | fetch, directory choice, directory creation, command set-up and start give the specified record and error |
| `RunLaunch.LaunchRecord` | cmd/run.go:191-205 | no error implies a record; a record exists if and only if the fetch and the directory succeeded; it runs the fetched binary with the given arguments in the chosen directory, and its pid is the OS pid or 0 |
| `RunLaunch.PersistDecision` | cmd/run.go:71 | the record is persisted if and only if the launch got as far as Start and either Start succeeded or a non-zero pid exists; persisting never happens without a record |
| `RunLaunch.ForwardedSignalPolicy` | cmd/run.go:100-103 | the child is killed with SIGKILL if and only if it is tidb or the parent got SIGKILL (which cannot happen, since SIGKILL cannot be caught); otherwise the received signal passes unchanged |
| `RunLaunch.RunAfterLaunch` | cmd/run.go:69-107 | a launch failure is returned exactly when the launch failed; a signal is sent to the child's own positive pid, as the forwarding policy says; a failed exit names the chosen directory and binary; a clean exit returns nothing |

## Left out

- The HTTP POST, the JSON body and the copy of the reply to standard output (components/playground/command.go:223-237) are I/O. A reply is `Delivered`, `PostFailed` or `CopyFailed` with the bytes written before the failure. A `json.Marshal` error cannot happen for this flat struct and is not modelled.
- The cobra command wiring (components/playground/command.go:78-157, 239-247, 267-275) is CLI glue. So are its quirks: `drainer` defaults to the pump count at line 104, and `tiflash.config` is bound to the tidb config path at line 112. The boot options are taken as given.
- `targetTag` reads the playground's port from local storage. Its result is an optional port.
- The wrapping of errors with stacks and annotations (`errors.AddStack`, `errors.Trace`, `errors.Annotatef`) is left out. Errors are modelled by kind.
- `isSupportedComponent` (cmd/run.go:115-131), the help text for no arguments (cmd/run.go:57-59) and `meta.ParseCompVersion` (cmd/run.go:61) are not part of this model. The `meta` and `localdata` packages are not part of this model either.
- The values of `localdata.EnvNameHome`, `localdata.EnvNameInstanceDataDir` and `localdata.DataParentDir` are not part of this model. They are parameters (`LocalNames`). The environment lemmas assume only that the two keys are non-empty, differ, and hold no '='.
- The goroutine and `select` race between `Wait` and a signal (cmd/run.go:86-107) is concurrency. The event that wins is a parameter.
- Process creation, `Start`, `os.MkdirAll` and writing the metadata file (cmd/run.go:72-79) are OS I/O. The outcomes of `Start` and `MkdirAll` are `Host` fields; of the metadata write the model keeps only the decision to persist.
- `Wait` is OS I/O. Its outcome is the `Event` parameter of `RunResult`.
- RunLaunch.RunResult: `syscall.Kill` is OS I/O. `KillSent` records only the pid and the signal; Kill's own error, which run returns (cmd/run.go:101, 103), is not modelled.
- The progress messages printed to standard output (cmd/run.go:82, 90, 99, 238) are logging only and are not modelled.
- `time.Now` and its RFC 3339 form are clock readings. They are `Host` fields.
- The `golang.org/x/mod/semver` order is a library outside the model. It is an abstract comparator, assumed antisymmetric in sign and transitive where maximality is proved.
- RunLaunch.Base62Name: models the integer loop `num % 62`. The source takes `math.Mod` on `float64`, which loses precision above 2^53; nanosecond clock values are that large, so the source's low digits can differ from these.
- RunVersion.LatestInstalled: among versions the comparator ranks equal, the model takes the first. `sort.Slice` is not stable, so the source may return any of them.
- RunLaunch.WorkDir: joins the profile root, the data directory and the name with "/". `profile.Path` and `filepath.Join` also clean the path, and that is not modelled.
- RunLaunch.LaunchComponent: the parent's own `os.Getenv` value is the `Host` field `instanceDataDir`, not derived from `environ`. A child's view of its environment is modelled as the last binding of each key, as `exec` does when it removes duplicates.
- RunLaunch.LaunchComponent: the ensures states the result through `Launch`. The fetch's effects on the profile and repository are those of `DownloadIfMissing` and are not restated.
- partition and restart ignore the error of `strconv.Atoi` (components/playground/command.go:256, 285): a syntax error gives pid 0, and an out-of-range pid gives the nearest 64-bit bound. The model follows the code.

## Findings

| source | as written | input that shows it | evidently intended | confidence | as-written member | corrected member |
|---|---|---|---|---|---|---|
| components/playground/command.go:263 | partition (line 263) and restart (line 292) send to `"127.0.0.1" + strconv.Itoa(port)`, with no colon | port 9527 gives the host "127.0.0.19527", not an address with a port | `"127.0.0.1:" + strconv.Itoa(port)`, as scale-in, scale-out and display use | high, not executed | `PlaygroundDispatch.Partition`, `PlaygroundDispatch.Restart`, `PlaygroundCommand.AddressWithoutColonHasNoPort` | `PlaygroundDispatch.CorrectedPartition`, `PlaygroundDispatch.CorrectedRestart`, `PlaygroundCommand.ControlAddressSplits` |
