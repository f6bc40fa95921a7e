/**
 * Starting one component instance (cmd/run.go): the base-62 instance name,
 * the working directory and environment of the child, the process record,
 * when that record is persisted, and which signal the child gets when the
 * parent is asked to stop.
 */
module RunLaunch {
  import opened Common
  import opened RunVersion

  const DecimalSymbols: string := "0123456789"
  const UpperSymbols: string := "ABCDEFGHIJKLMNOPQRSTUVWXYZ"
  const LowerSymbols: string := "abcdefghijklmnopqrstuvwxyz"

  /** The 62 symbols of an instance name, in digit order: 0-9, A-Z, a-z. */
  const Base62Digits: string := DecimalSymbols + UpperSymbols + LowerSymbols

  predicate IsBase62(c: char)
  {
    ('0' <= c <= '9') || ('A' <= c <= 'Z') || ('a' <= c <= 'z')
  }

  /** The digit a symbol stands for. */
  function DigitOf(c: char): nat
    requires IsBase62(c)
  {
    if c <= '9' then c as int - '0' as int
    else if c <= 'Z' then c as int - 'A' as int + 10
    else c as int - 'a' as int + 36
  }

  lemma UpperSymbolAt(d: nat)
    requires d < 26
    ensures UpperSymbols[d] == ('A' as int + d) as char
  {
  }

  lemma LowerSymbolAt(d: nat)
    requires d < 26
    ensures LowerSymbols[d] == ('a' as int + d) as char
  {
  }

  /** The symbol for a digit, by character arithmetic. */
  function Symbol(d: nat): (c: char)
    requires d < 62
    ensures IsBase62(c) && DigitOf(c) == d
  {
    if d < 10 then ('0' as int + d) as char
    else if d < 36 then ('A' as int + d - 10) as char
    else ('a' as int + d - 36) as char
  }

  /** The alphabet constant holds 62 symbols, each the symbol of its position. */
  lemma Base62DigitsAt(d: nat)
    requires d < 62
    ensures |Base62Digits| == 62 && Base62Digits[d] == Symbol(d)
  {
    if d >= 36 {
      LowerSymbolAt(d - 36);
    } else if d >= 10 {
      UpperSymbolAt(d - 10);
    }
  }

  lemma DigitOfInjective(c: char, e: char)
    requires IsBase62(c) && IsBase62(e) && DigitOf(c) == DigitOf(e)
    ensures c == e
  {
  }

  /** The base-62 form of a number, most significant symbol first; empty for 0 and below. */
  function Encode(n: int): string
    decreases n
  {
    if n <= 0 then "" else Encode(n / 62) + [Symbol(n % 62)]
  }

  /** The value of a base-62 string. */
  function Decode(s: string): nat
    requires forall i :: 0 <= i < |s| ==> IsBase62(s[i])
  {
    if s == [] then 0 else Decode(s[..|s| - 1]) * 62 + DigitOf(s[|s| - 1])
  }

  /** base62Name's loop: take the last digit, divide, prepend its symbol, until the number is used up. */
  method Base62Name(now: int) returns (name: string)
    ensures name == Encode(now)
  {
    var num := now;
    var b: string := [];
    while num > 0
      invariant Encode(now) == Encode(num) + b
    {
      var r := num % 62;
      Base62DigitsAt(r);
      num := num / 62;
      b := [Base62Digits[r]] + b;
    }
    name := b;
  }

  /** An encoding uses only the 62 symbols, is empty exactly for 0 and below, and never starts with '0'. */
  lemma {:induction false} EncodeShape(n: int)
    ensures forall i :: 0 <= i < |Encode(n)| ==> IsBase62(Encode(n)[i])
    ensures Encode(n) == [] <==> n <= 0
    ensures n > 0 ==> Encode(n)[0] != '0'
    decreases n
  {
    if n > 0 {
      EncodeShape(n / 62);
      if n / 62 == 0 {
        assert Encode(n) == [Symbol(n)];
      }
    }
  }

  /** Decoding an encoding gives the number back (0 for numbers at or below 0). */
  lemma {:induction false} DecodeEncode(n: int)
    ensures forall i :: 0 <= i < |Encode(n)| ==> IsBase62(Encode(n)[i])
    ensures Decode(Encode(n)) == if n > 0 then n else 0
    decreases n
  {
    EncodeShape(n);
    if n > 0 {
      DecodeEncode(n / 62);
      var s := Encode(n);
      assert s[..|s| - 1] == Encode(n / 62);
    }
  }

  /** Appending a digit to a positive number's encoding encodes the number times 62 plus that digit. */
  lemma EncodeStep(q: nat, d: nat)
    requires d < 62 && q * 62 + d > 0
    ensures Encode(q * 62 + d) == Encode(q) + [Symbol(d)]
  {
    var n := q * 62 + d;
    assert n / 62 == q && n % 62 == d;
  }

  /** A base-62 string without a leading '0' is the encoding of its value. */
  lemma {:induction false} EncodeDecode(s: string)
    requires forall i :: 0 <= i < |s| ==> IsBase62(s[i])
    requires |s| > 0 ==> s[0] != '0'
    ensures Encode(Decode(s)) == s
    decreases |s|
  {
    if s != [] {
      var init, c := s[..|s| - 1], s[|s| - 1];
      var d, q := DigitOf(c), Decode(init);
      assert |init| > 0 ==> init[0] == s[0];
      EncodeDecode(init);
      if init == [] {
        assert c == s[0];
      } else {
        assert Encode(q) != [];
      }
      EncodeStep(q, d);
      DigitOfInjective(Symbol(d), c);
      assert Decode(s) == q * 62 + d;
      assert s == Encode(q) + [Symbol(d)];
    }
  }

  /**
   * The names the local-data package supplies: the two environment keys the
   * child receives and the directory under the profile root that holds
   * instance directories. Their literal values are not part of this model.
   */
  datatype LocalNames = LocalNames(envHome: string, envInstanceDataDir: string, dataParentDir: string)

  /** Usable environment keys: non-empty, without '=', and different from each other. */
  predicate ValidNames(names: LocalNames)
  {
    names.envHome != [] && names.envInstanceDataDir != []
    && '=' !in names.envHome && '=' !in names.envInstanceDataDir
    && names.envHome != names.envInstanceDataDir
  }

  /** profile.Path(DataParentDir/name): the instance directory under the profile root. */
  function InstanceDir(root: string, parent: string, name: string): string
  {
    root + "/" + parent + "/" + name
  }

  /**
   * The working directory of a launch: the inherited override when it is
   * non-empty, otherwise the instance directory named by the given name, or
   * by the generated one when no name was given.
   */
  function WorkDir(names: LocalNames, override: string, name: string, generated: string, root: string): (wd: string)
    ensures wd != []
  {
    if override != "" then override
    else InstanceDir(root, names.dataParentDir, if name == "" then generated else name)
  }

  /** An environment entry: the key, '=', then the value. */
  function Entry(key: string, value: string): string
  {
    key + "=" + value
  }

  predicate HasKey(entry: string, key: string)
  {
    |entry| > |key| && entry[..|key|] == key && entry[|key|] == '='
  }

  /** The value bound to a key, looking from the end, so that a later entry hides an earlier one. */
  function Lookup(env: seq<string>, key: string): Option<string>
  {
    if env == [] then None
    else
      var e := env[|env| - 1];
      if HasKey(e, key) then Some(e[|key| + 1..]) else Lookup(env[..|env| - 1], key)
  }

  /** os.Getenv: the bound value, or "" when the key is unset. */
  function Getenv(env: seq<string>, key: string): string
  {
    match Lookup(env, key)
    case Some(v) => v
    case None => ""
  }

  /** The two entries a launch adds: the profile root and the working directory. */
  function Overlay(names: LocalNames, root: string, wd: string): seq<string>
  {
    [Entry(names.envHome, root), Entry(names.envInstanceDataDir, wd)]
  }

  /**
   * The child's environment: everything inherited, then the overlay.  The
   * overlay wins: both keys are bound to the launch's values whatever was
   * inherited, and every other key keeps the value it was inherited with.
   */
  function ChildEnv(inherited: seq<string>, names: LocalNames, root: string, wd: string): (env: seq<string>)
    ensures |env| == |inherited| + 2 && env[..|inherited|] == inherited
    ensures ValidNames(names) ==>
      Lookup(env, names.envHome) == Some(root) && Lookup(env, names.envInstanceDataDir) == Some(wd)
    ensures ValidNames(names) ==>
      forall key :: '=' !in key && key != names.envHome && key != names.envInstanceDataDir ==>
        Lookup(env, key) == Lookup(inherited, key)
  {
    if ValidNames(names) then
      OverlayWins(inherited, names, root, wd);
      inherited + Overlay(names, root, wd)
    else
      inherited + Overlay(names, root, wd)
  }

  lemma EntryHasKey(key: string, value: string)
    ensures HasKey(Entry(key, value), key) && Entry(key, value)[|key| + 1..] == value
  {
    assert Entry(key, value)[..|key|] == key;
  }

  /** An entry for one key never matches a different key when neither contains '='. */
  lemma EntryOtherKey(key: string, other: string, value: string)
    requires '=' !in key && '=' !in other && key != other
    ensures !HasKey(Entry(other, value), key)
  {
    var e := Entry(other, value);
    if |key| < |other| {
      assert e[|key|] == other[|key|] && other[|key|] in other;
    } else if |key| > |other| {
      if |e| >= |key| {
        assert e[..|key|][|other|] == '=' && key[|other|] in key;
      }
    } else {
      assert e[..|key|] == other;
    }
  }

  /** The lookups that make the overlay win, on the concatenation itself. */
  lemma {:induction false} OverlayWins(inherited: seq<string>, names: LocalNames, root: string, wd: string)
    requires ValidNames(names)
    ensures Lookup(inherited + Overlay(names, root, wd), names.envHome) == Some(root)
    ensures Lookup(inherited + Overlay(names, root, wd), names.envInstanceDataDir) == Some(wd)
    ensures forall key :: '=' !in key && key != names.envHome && key != names.envInstanceDataDir ==>
      Lookup(inherited + Overlay(names, root, wd), key) == Lookup(inherited, key)
  {
    var env := inherited + Overlay(names, root, wd);
    var home := Entry(names.envHome, root);
    var dir := Entry(names.envInstanceDataDir, wd);
    assert env[..|env| - 1] == inherited + [home];
    assert (inherited + [home])[..|inherited|] == inherited;
    EntryHasKey(names.envHome, root);
    EntryHasKey(names.envInstanceDataDir, wd);
    EntryOtherKey(names.envHome, names.envInstanceDataDir, wd);
    forall key | '=' !in key && key != names.envHome && key != names.envInstanceDataDir
      ensures Lookup(env, key) == Lookup(inherited, key)
    {
      EntryOtherKey(key, names.envInstanceDataDir, wd);
      EntryOtherKey(key, names.envHome, root);
    }
  }

  /**
   * A component launched from inside a launched component inherits its
   * working directory: the override the child sees is the directory it was
   * started in, so it is chosen again whatever name is given.
   */
  lemma NestedLaunchKeepsDir(inherited: seq<string>, names: LocalNames, root: string, wd: string,
                             name: string, generated: string)
    requires ValidNames(names) && wd != ""
    ensures WorkDir(names, Getenv(ChildEnv(inherited, names, root, wd), names.envInstanceDataDir), name, generated, root) == wd
  {
  }

  /** How the child was started: the command's path, arguments, full environment and directory. */
  datatype ExecCommand = ExecCommand(path: string, args: seq<string>, env: seq<string>, dir: string)

  /** The process record; env holds only the overlay, the command holds the full environment. */
  datatype Process = Process(component: string, createdTime: string, pid: int, exec: string,
                             args: seq<string>, env: seq<string>, dir: string, cmd: ExecCommand)

  /** What starting the child gave: whether an OS process exists, its pid, and whether Start reported an error. */
  datatype StartResult = StartResult(processCreated: bool, osPid: int, failed: bool)

  /** What the launch reads from its host: the environment, the override, the clock, the directory creator and the start. */
  datatype Host = Host(environ: seq<string>, instanceDataDir: string, now: int, createdTime: string,
                       mkdirSucceeds: string -> bool, start: StartResult)

  datatype LaunchError = FetchFailed(cause: FetchError) | MkdirFailed(dir: string) | StartFailed

  /** The record a launch builds once its directory exists. */
  function Record(names: LocalNames, component: string, binPath: string, args: seq<string>, wd: string,
                  root: string, host: Host): Process
  {
    var envs := Overlay(names, root, wd);
    Process(component, host.createdTime, if host.start.processCreated then host.start.osPid else 0,
            binPath, args, envs, wd, ExecCommand(binPath, args, host.environ + envs, wd))
  }

  /** launchComponent's result: the record (if any) and the error (if any). */
  function Launch(names: LocalNames, component: string, version: string, name: string, args: seq<string>,
                  cmp: Comparator, profile: Profile, repo: Repository, host: Host): (Option<Process>, Option<LaunchError>)
  {
    match FetchOutcome(component, version, cmp, profile, repo)
    case Failure(e) => (None, Some(FetchFailed(e)))
    case Success(binPath) =>
      var wd := WorkDir(names, host.instanceDataDir, name, Encode(host.now), profile.root);
      if !host.mkdirSucceeds(wd) then (None, Some(MkdirFailed(wd)))
      else (Some(Record(names, component, binPath, args, wd, profile.root, host)),
            if host.start.failed then Some(StartFailed) else None)
  }

  /**
   * launchComponent: fetch the binary, choose and create the working
   * directory, build the child command with the overlay environment, start it
   * and record its pid (0 when no OS process was created).
   */
  method LaunchComponent(names: LocalNames, component: string, version: string, name: string, args: seq<string>,
                         cmp: Comparator, profile: Profile, repo: Repository, host: Host)
    returns (p: Option<Process>, err: Option<LaunchError>)
    modifies profile, repo
    ensures (p, err) == Launch(names, component, version, name, args, cmp, profile, repo, host)
  {
    var fetched := DownloadIfMissing(component, version, cmp, profile, repo);
    if fetched.Failure? {
      return None, Some(FetchFailed(fetched.error));
    }
    var binPath := fetched.value;
    var wd := host.instanceDataDir;
    if wd == "" {
      var instance := name;
      if instance == "" {
        instance := Base62Name(host.now);
      }
      wd := InstanceDir(profile.root, names.dataParentDir, instance);
    }
    if !host.mkdirSucceeds(wd) {
      return None, Some(MkdirFailed(wd));
    }
    var envs := Overlay(names, profile.root, wd);
    var c := ExecCommand(binPath, args, host.environ + envs, wd);
    var pid := 0;
    if host.start.processCreated {
      pid := host.start.osPid;
    }
    p := Some(Process(component, host.createdTime, pid, binPath, args, envs, wd, c));
    err := if host.start.failed then Some(StartFailed) else None;
  }

  /**
   * Every launch without an error has a record, and a record describes the
   * child as started: its command runs the fetched binary with the given
   * arguments in the chosen directory, with the overlay appended to the
   * inherited environment, and its pid is the OS pid or 0.
   */
  lemma LaunchRecord(names: LocalNames, component: string, version: string, name: string, args: seq<string>,
                     cmp: Comparator, profile: Profile, repo: Repository, host: Host)
    requires ValidNames(names)
    ensures var (p, err) := Launch(names, component, version, name, args, cmp, profile, repo, host);
      (err.None? ==> p.Some?)
      && (p.Some? <==> FetchOutcome(component, version, cmp, profile, repo).Success?
                       && host.mkdirSucceeds(WorkDir(names, host.instanceDataDir, name, Encode(host.now), profile.root)))
      && (p.Some? ==>
            var q := p.value;
            q.component == component && q.args == args && q.cmd.args == args
            && q.exec == q.cmd.path && FetchOutcome(component, version, cmp, profile, repo) == Success(q.exec)
            && q.dir == q.cmd.dir == WorkDir(names, host.instanceDataDir, name, Encode(host.now), profile.root)
            && q.cmd.env == ChildEnv(host.environ, names, profile.root, q.dir)
            && Getenv(q.cmd.env, names.envInstanceDataDir) == q.dir
            && Getenv(q.cmd.env, names.envHome) == profile.root
            && q.pid == (if host.start.processCreated then host.start.osPid else 0))
  {
  }

  /** The metadata is written when the launch reported no error, or when it left a record with a real pid. */
  predicate ShouldPersist(p: Option<Process>, err: Option<LaunchError>)
  {
    err.None? || (p.Some? && p.value.pid != 0)
  }

  /** Start's guarantee: when it reports no error, an OS process with a positive pid exists. */
  predicate StartConsistent(r: StartResult)
  {
    !r.failed ==> r.processCreated && r.osPid > 0
  }

  /**
   * The metadata of a launch is persisted exactly when the fetch and the
   * directory succeeded and the child either started or at least got a
   * non-zero pid; whenever it is persisted there is a record to write into
   * the record's own directory.
   */
  lemma PersistDecision(names: LocalNames, component: string, version: string, name: string, args: seq<string>,
                        cmp: Comparator, profile: Profile, repo: Repository, host: Host)
    ensures var (p, err) := Launch(names, component, version, name, args, cmp, profile, repo, host);
      (ShouldPersist(p, err) ==> p.Some?)
      && (ShouldPersist(p, err) <==>
            FetchOutcome(component, version, cmp, profile, repo).Success?
            && host.mkdirSucceeds(WorkDir(names, host.instanceDataDir, name, Encode(host.now), profile.root))
            && (!host.start.failed || (host.start.processCreated && host.start.osPid != 0)))
  {
  }

  /**
   * The signals the run command registers for.  SIGKILL is among them, but
   * SIGKILL cannot be caught, so the parent never receives it:
   * SignalReceived(SIGKILL), and the case of ForwardedSignalPolicy where the
   * parent itself got SIGKILL, describe a situation that cannot arise.
   */
  datatype Signal = SIGINT | SIGQUIT | SIGKILL | SIGTERM

  /** The signal passed on to the child: tidb is always killed, every other component gets what the parent got. */
  function ForwardedSignal(component: string, received: Signal): Signal
  {
    if component == "tidb" then SIGKILL else received
  }

  /** The child is killed outright exactly when it is tidb or the parent itself got SIGKILL; otherwise the signal passes unchanged. */
  lemma ForwardedSignalPolicy(component: string, received: Signal)
    ensures ForwardedSignal(component, received) == SIGKILL <==> component == "tidb" || received == SIGKILL
    ensures component != "tidb" ==> ForwardedSignal(component, received) == received
    ensures ForwardedSignal(component, received) != received ==> component == "tidb" && received != SIGKILL
  {
  }

  /** What ends the wait: the child exits (with Wait's error, if any) or the parent receives a signal. */
  datatype Event = ChildExited(waitError: Option<string>) | SignalReceived(sig: Signal)

  /** What the run command returns. */
  datatype RunOutcome =
    | LaunchFailed(cause: LaunchError)
    | Exited
    | ExitFailed(waitError: string, exec: string, dir: string)
    | KillSent(pid: int, sig: Signal)

  /**
   * The run command after launchComponent: a launch error is returned; a
   * clean exit returns nothing (annotating a nil error gives nil); a failed
   * exit is annotated with the binary and directory; a signal is forwarded to
   * the recorded pid.
   */
  function RunResult(component: string, p: Option<Process>, err: Option<LaunchError>, event: Event): RunOutcome
    requires err.None? ==> p.Some?
  {
    if err.Some? then LaunchFailed(err.value)
    else match event
      case SignalReceived(s) => KillSent(p.value.pid, ForwardedSignal(component, s))
      case ChildExited(None) => Exited
      case ChildExited(Some(e)) => ExitFailed(e, p.value.exec, p.value.dir)
  }

  /**
   * A launch followed by an event: the run returns a launch failure exactly
   * when the launch failed; a signal reaches the child's own positive pid (never pid 0, the
   * process group) as the forwarding policy says; a failed exit names the
   * working directory the launch chose.
   */
  lemma RunAfterLaunch(names: LocalNames, component: string, version: string, name: string, args: seq<string>,
                       cmp: Comparator, profile: Profile, repo: Repository, host: Host, event: Event)
    requires StartConsistent(host.start)
    ensures var (p, err) := Launch(names, component, version, name, args, cmp, profile, repo, host);
      (err.None? ==> p.Some?)
      && var out := RunResult(component, p, err, event);
      (out.LaunchFailed? <==> err.Some?)
      && (out.KillSent? ==> event.SignalReceived? && out.pid == host.start.osPid && out.pid > 0
                            && out.sig == ForwardedSignal(component, event.sig))
      && (out.ExitFailed? ==> out.dir == WorkDir(names, host.instanceDataDir, name, Encode(host.now), profile.root)
                              && FetchOutcome(component, version, cmp, profile, repo) == Success(out.exec))
      && (out.Exited? <==> err.None? && event == ChildExited(None))
  {
  }
}
