/**
 * Sending playground commands (components/playground/command.go): the
 * fail-fast loop of sendCommandsAndPrintResult over an abstract control
 * endpoint, and the scale-in, scale-out, display, partition and restart
 * operations that build a batch and send it to the recorded control port.
 */
module PlaygroundDispatch {
  import opened Common
  import opened PlaygroundCommand
  import Strconv

  /**
   * What one request to the control endpoint comes to: the response body was
   * copied out in full, the POST itself failed, or copying the body failed
   * after part of it was written.
   */
  datatype Reply = Delivered(body: string) | PostFailed | CopyFailed(written: string)

  function Written(r: Reply): string
  {
    match r
    case Delivered(body) => body
    case PostFailed => ""
    case CopyFailed(written) => written
  }

  /** Every request made so far, in order: the command and the address it went to. */
  type History = seq<(Command, string)>

  /**
   * How the playground answers a request, given every request made before it:
   * the same command may be answered differently the second time.
   */
  type Answer = (History, Command, string) -> Reply

  /**
   * The control endpoint as seen from this process: `answer` says how the
   * playground answers each request, `requests` records every POST attempted,
   * in order, and `stdout` what was copied to standard output.
   */
  class Transport {
    const answer: Answer
    var requests: History
    var stdout: string

    constructor (answer: Answer)
      ensures this.answer == answer && requests == [] && stdout == ""
    {
      this.answer := answer;
      requests := [];
      stdout := "";
    }

    /** requestCommand and the copy of its response body to standard output. */
    method Request(cmd: Command, addr: string) returns (reply: Reply)
      modifies this
      ensures reply == answer(old(requests), cmd, addr)
      ensures requests == old(requests) + [(cmd, addr)]
      ensures stdout == old(stdout) + Written(reply)
    {
      reply := answer(requests, cmd, addr);
      requests := requests + [(cmd, addr)];
      stdout := stdout + Written(reply);
    }
  }

  datatype DispatchError = RequestError | CopyError

  /** The requests a batch sent to one address makes, in order. */
  function Requests(cmds: seq<Command>, addr: string): History
  {
    if cmds == [] then [] else Requests(cmds[..|cmds| - 1], addr) + [(cmds[|cmds| - 1], addr)]
  }

  /** The reply to the i-th command of a batch, after the earlier history and the batch's first i requests. */
  function ReplyAt(cmds: seq<Command>, addr: string, answer: Answer, prior: History, i: nat): Reply
    requires i < |cmds|
  {
    answer(prior + Requests(cmds[..i], addr), cmds[i], addr)
  }

  /** Index of the first command from j on that is not answered in full, or the batch length if there is none. */
  function FirstFailureFrom(cmds: seq<Command>, addr: string, answer: Answer, prior: History, j: nat): (k: nat)
    requires j <= |cmds|
    ensures j <= k <= |cmds|
    decreases |cmds| - j
  {
    if j == |cmds| then j
    else if !ReplyAt(cmds, addr, answer, prior, j).Delivered? then j
    else FirstFailureFrom(cmds, addr, answer, prior, j + 1)
  }

  /** Index of the first command the endpoint does not answer in full, or the batch length if there is none. */
  function FirstFailure(cmds: seq<Command>, addr: string, answer: Answer, prior: History): (k: nat)
    ensures k <= |cmds|
  {
    FirstFailureFrom(cmds, addr, answer, prior, 0)
  }

  /** Every command from j up to the first failure is answered in full, and the one at it is not. */
  lemma {:induction false} FirstFailureSpec(cmds: seq<Command>, addr: string, answer: Answer, prior: History, j: nat)
    requires j <= |cmds|
    ensures var k := FirstFailureFrom(cmds, addr, answer, prior, j);
      (forall i :: j <= i < k ==> ReplyAt(cmds, addr, answer, prior, i).Delivered?)
      && (k < |cmds| ==> !ReplyAt(cmds, addr, answer, prior, k).Delivered?)
    decreases |cmds| - j
  {
    if j < |cmds| && ReplyAt(cmds, addr, answer, prior, j).Delivered? {
      FirstFailureSpec(cmds, addr, answer, prior, j + 1);
    }
  }

  /** A position is the first failure when everything before it is answered in full and it is not. */
  lemma FirstFailureAt(cmds: seq<Command>, addr: string, answer: Answer, prior: History, n: nat)
    requires n <= |cmds|
    requires forall i :: 0 <= i < n ==> ReplyAt(cmds, addr, answer, prior, i).Delivered?
    requires n < |cmds| ==> !ReplyAt(cmds, addr, answer, prior, n).Delivered?
    ensures FirstFailure(cmds, addr, answer, prior) == n
    ensures Attempted(cmds, addr, answer, prior) == if n < |cmds| then n + 1 else n
  {
    FirstFailureSpec(cmds, addr, answer, prior, 0);
  }

  /** How many commands get sent: all up to and including the first that fails. */
  function Attempted(cmds: seq<Command>, addr: string, answer: Answer, prior: History): nat
  {
    var k := FirstFailure(cmds, addr, answer, prior);
    if k < |cmds| then k + 1 else |cmds|
  }

  function DispatchOutcome(cmds: seq<Command>, addr: string, answer: Answer, prior: History): Option<DispatchError>
  {
    var k := FirstFailure(cmds, addr, answer, prior);
    if k == |cmds| then None
    else if ReplyAt(cmds, addr, answer, prior, k).PostFailed? then Some(RequestError)
    else Some(CopyError)
  }

  /** What the replies to a batch put on standard output, in order. */
  function Output(cmds: seq<Command>, addr: string, answer: Answer, prior: History): string
  {
    if cmds == [] then ""
    else Output(cmds[..|cmds| - 1], addr, answer, prior) + Written(ReplyAt(cmds, addr, answer, prior, |cmds| - 1))
  }

  /** Sending one more command of the batch adds its request and its written reply. */
  lemma SentStep(cmds: seq<Command>, addr: string, answer: Answer, prior: History, n: nat)
    requires n < |cmds|
    ensures Requests(cmds[..n + 1], addr) == Requests(cmds[..n], addr) + [(cmds[n], addr)]
    ensures Output(cmds[..n + 1], addr, answer, prior)
         == Output(cmds[..n], addr, answer, prior) + Written(ReplyAt(cmds, addr, answer, prior, n))
  {
    assert cmds[..n + 1][..n] == cmds[..n];
  }

  /**
   * sendCommandsAndPrintResult: one request per command, strictly in order,
   * stopping at the first request or copy failure.
   */
  method SendCommandsAndPrintResult(cmds: seq<Command>, addr: string, t: Transport) returns (err: Option<DispatchError>)
    modifies t
    ensures var n := Attempted(cmds, addr, t.answer, old(t.requests));
      t.requests == old(t.requests) + Requests(cmds[..n], addr)
      && t.stdout == old(t.stdout) + Output(cmds[..n], addr, t.answer, old(t.requests))
    ensures err == DispatchOutcome(cmds, addr, t.answer, old(t.requests))
  {
    ghost var prior := t.requests;
    var n := 0;
    while n < |cmds|
      invariant n <= |cmds|
      invariant forall i :: 0 <= i < n ==> ReplyAt(cmds, addr, t.answer, prior, i).Delivered?
      invariant t.requests == prior + Requests(cmds[..n], addr)
      invariant t.stdout == old(t.stdout) + Output(cmds[..n], addr, t.answer, prior)
    {
      SentStep(cmds, addr, t.answer, prior, n);
      AppendAssoc(prior, Requests(cmds[..n], addr), [(cmds[n], addr)]);
      AppendAssoc(old(t.stdout), Output(cmds[..n], addr, t.answer, prior), Written(ReplyAt(cmds, addr, t.answer, prior, n)));
      var reply := t.Request(cmds[n], addr);
      match reply
      case PostFailed =>
        FirstFailureAt(cmds, addr, t.answer, prior, n);
        return Some(RequestError);
      case CopyFailed(_) =>
        FirstFailureAt(cmds, addr, t.answer, prior, n);
        return Some(CopyError);
      case Delivered(_) =>
        n := n + 1;
    }
    FirstFailureAt(cmds, addr, t.answer, prior, n);
    assert cmds[..n] == cmds;
    err := None;
  }

  /** A batch succeeds exactly when every command in it is answered in full. */
  lemma DispatchSucceedsIff(cmds: seq<Command>, addr: string, answer: Answer, prior: History)
    ensures DispatchOutcome(cmds, addr, answer, prior) == None <==>
            forall i :: 0 <= i < |cmds| ==> ReplyAt(cmds, addr, answer, prior, i).Delivered?
  {
    FirstFailureSpec(cmds, addr, answer, prior, 0);
  }

  /**
   * On failure the failing command is the last one sent: every earlier one
   * was answered in full and no later one is sent.
   */
  lemma DispatchFailFast(cmds: seq<Command>, addr: string, answer: Answer, prior: History)
    requires DispatchOutcome(cmds, addr, answer, prior).Some?
    ensures var n := Attempted(cmds, addr, answer, prior);
      0 < n <= |cmds| && !ReplyAt(cmds, addr, answer, prior, n - 1).Delivered?
      && (forall i :: 0 <= i < n - 1 ==> ReplyAt(cmds, addr, answer, prior, i).Delivered?)
      && Requests(cmds[..n], addr) == Requests(cmds[..n - 1], addr) + [(cmds[n - 1], addr)]
  {
    FirstFailureSpec(cmds, addr, answer, prior, 0);
    var n := Attempted(cmds, addr, answer, prior);
    assert cmds[..n][..n - 1] == cmds[..n - 1];
  }

  /** Two scale-in targets whose first request fails: only the first is ever sent. */
  lemma ScaleInStopsAtFirstFailure(addr: string, answer: Answer, prior: History)
    requires answer(prior, TargetCommand(ScaleInCommandType, 111), addr) == PostFailed
    ensures var cmds := [TargetCommand(ScaleInCommandType, 111), TargetCommand(ScaleInCommandType, 222)];
      Attempted(cmds, addr, answer, prior) == 1
      && Requests(cmds[..1], addr) == [(TargetCommand(ScaleInCommandType, 111), addr)]
      && DispatchOutcome(cmds, addr, answer, prior) == Some(RequestError)
  {
    var cmds := [TargetCommand(ScaleInCommandType, 111), TargetCommand(ScaleInCommandType, 222)];
    assert cmds[..0] == [] && prior + [] == prior;
    assert cmds[..1] == [cmds[0]];
  }

  /**
   * A playground that answers only the first request it ever sees: the same
   * command sent twice is delivered once and then fails, so the batch stops
   * at its second command.
   */
  lemma RepeatedCommandCanFail(c: Command, addr: string)
    ensures var answer: Answer := (h: History, cmd: Command, a: string) => if h == [] then Delivered("ok") else PostFailed;
      FirstFailure([c, c], addr, answer, []) == 1
      && Attempted([c, c], addr, answer, []) == 2
      && DispatchOutcome([c, c], addr, answer, []) == Some(RequestError)
      && Output([c, c], addr, answer, []) == "ok"
  {
    var answer: Answer := (h: History, cmd: Command, a: string) => if h == [] then Delivered("ok") else PostFailed;
    var cmds := [c, c];
    assert cmds[..0] == [] && cmds[..1] == [c];
    assert Requests(cmds[..1], addr) == [(c, addr)];
    assert ReplyAt(cmds, addr, answer, [], 0) == Delivered("ok");
    assert ReplyAt(cmds, addr, answer, [], 1) == PostFailed;
    FirstFailureAt(cmds, addr, answer, [], 1);
    assert cmds[..|cmds| - 1] == [c] && [c][..0] == [];
    assert Output([c], addr, answer, []) == "ok";
  }

  /** Why a playground operation failed: no running playground was found, or sending failed. */
  datatype OpError = NoPlayground | SendFailed(cause: DispatchError)

  function Lift(e: Option<DispatchError>): Option<OpError>
  {
    match e
    case None => None
    case Some(d) => Some(SendFailed(d))
  }

  /** The commands of one per-instance operation, one per target pid, in order. */
  function TargetBatch(tp: CommandType, pids: seq<int>): seq<Command>
  {
    seq(|pids|, i requires 0 <= i < |pids| => TargetCommand(tp, pids[i]))
  }

  /** The pids partition and restart read from their arguments. */
  function ParsedPids(args: seq<string>): seq<int>
  {
    seq(|args|, i requires 0 <= i < |args| => Strconv.Atoi(args[i]).value)
  }

  /** The transport's record grew by exactly the requests and output of sending cmds to addr, fail-fast. */
  ghost predicate Sent(t: Transport, requests0: History, stdout0: string, cmds: seq<Command>, addr: string)
    reads t
  {
    var n := Attempted(cmds, addr, t.answer, requests0);
    t.requests == requests0 + Requests(cmds[..n], addr) && t.stdout == stdout0 + Output(cmds[..n], addr, t.answer, requests0)
  }

  /**
   * scaleIn: with a running playground, one scale-in command per pid is sent
   * to its control address; without one, nothing is sent.
   */
  method ScaleIn(pids: seq<int>, port: Option<int>, t: Transport) returns (err: Option<OpError>)
    modifies t
    ensures port.None? ==> err == Some(NoPlayground) && t.requests == old(t.requests) && t.stdout == old(t.stdout)
    ensures port.Some? ==>
      var cmds, addr := TargetBatch(ScaleInCommandType, pids), ControlAddress(port.value);
      Sent(t, old(t.requests), old(t.stdout), cmds, addr) && err == Lift(DispatchOutcome(cmds, addr, t.answer, old(t.requests)))
  {
    if port.None? {
      return Some(NoPlayground);
    }
    var cmds := ScaleInCommands(pids);
    assert cmds == TargetBatch(ScaleInCommandType, pids);
    var e := SendCommandsAndPrintResult(cmds, ControlAddress(port.value), t);
    err := Lift(e);
  }

  /**
   * scaleOut: builds the scale-out batch; when it is empty nothing is sent and
   * 0 is returned, otherwise the batch is sent and its size returned, whether
   * or not sending succeeded.
   */
  method ScaleOut(opt: BootOptions, port: Option<int>, t: Transport) returns (num: int, err: Option<OpError>)
    modifies t
    ensures port.None? ==> num == 0 && err == Some(NoPlayground)
    ensures port.None? || TotalDesired(opt) == 0 ==> t.requests == old(t.requests) && t.stdout == old(t.stdout)
    ensures port.Some? && TotalDesired(opt) == 0 ==> num == 0 && err == None
    ensures port.Some? && TotalDesired(opt) > 0 ==>
      var cmds, addr := BuildCommands(ScaleOutCommandType, opt), ControlAddress(port.value);
      num == TotalDesired(opt) && Sent(t, old(t.requests), old(t.stdout), cmds, addr)
      && err == Lift(DispatchOutcome(cmds, addr, t.answer, old(t.requests)))
  {
    if port.None? {
      return 0, Some(NoPlayground);
    }
    var cmds := BuildCommandsLoop(ScaleOutCommandType, opt);
    BuildCommandsCount(ScaleOutCommandType, opt);
    if |cmds| == 0 {
      return 0, None;
    }
    var e := SendCommandsAndPrintResult(cmds, ControlAddress(port.value), t);
    num, err := |cmds|, Lift(e);
  }

  /** display: a single display command. */
  method Display(port: Option<int>, t: Transport) returns (err: Option<OpError>)
    modifies t
    ensures port.None? ==> err == Some(NoPlayground) && t.requests == old(t.requests) && t.stdout == old(t.stdout)
    ensures port.Some? ==>
      var cmds, addr := [DisplayCommand], ControlAddress(port.value);
      Sent(t, old(t.requests), old(t.stdout), cmds, addr) && err == Lift(DispatchOutcome(cmds, addr, t.answer, old(t.requests)))
  {
    if port.None? {
      return Some(NoPlayground);
    }
    var e := SendCommandsAndPrintResult([DisplayCommand], ControlAddress(port.value), t);
    err := Lift(e);
  }

  /**
   * partition and restart: one command of the given type per argument, its
   * pid read with Atoi, sent to the address built from the port.
   */
  method SendParsedTargets(tp: CommandType, args: seq<string>, port: Option<int>, address: int -> string, t: Transport)
    returns (err: Option<OpError>)
    modifies t
    ensures port.None? ==> err == Some(NoPlayground) && t.requests == old(t.requests) && t.stdout == old(t.stdout)
    ensures port.Some? ==>
      var cmds, addr := TargetBatch(tp, ParsedPids(args)), address(port.value);
      Sent(t, old(t.requests), old(t.stdout), cmds, addr) && err == Lift(DispatchOutcome(cmds, addr, t.answer, old(t.requests)))
  {
    if port.None? {
      return Some(NoPlayground);
    }
    var cmds := ParsedTargetCommands(tp, args);
    assert cmds == TargetBatch(tp, ParsedPids(args));
    var e := SendCommandsAndPrintResult(cmds, address(port.value), t);
    err := Lift(e);
  }

  /** partition as written: the batch goes to the loopback host and port joined without a colon. */
  method Partition(args: seq<string>, port: Option<int>, t: Transport) returns (err: Option<OpError>)
    modifies t
    ensures port.None? ==> err == Some(NoPlayground) && t.requests == old(t.requests) && t.stdout == old(t.stdout)
    ensures port.Some? ==>
      var cmds, addr := TargetBatch(PartitionCommandType, ParsedPids(args)), AddressWithoutColon(port.value);
      Sent(t, old(t.requests), old(t.stdout), cmds, addr) && err == Lift(DispatchOutcome(cmds, addr, t.answer, old(t.requests)))
  {
    err := SendParsedTargets(PartitionCommandType, args, port, AddressWithoutColon, t);
  }

  /** restart as written: the batch goes to the loopback host and port joined without a colon. */
  method Restart(args: seq<string>, port: Option<int>, t: Transport) returns (err: Option<OpError>)
    modifies t
    ensures port.None? ==> err == Some(NoPlayground) && t.requests == old(t.requests) && t.stdout == old(t.stdout)
    ensures port.Some? ==>
      var cmds, addr := TargetBatch(RestartCommandType, ParsedPids(args)), AddressWithoutColon(port.value);
      Sent(t, old(t.requests), old(t.stdout), cmds, addr) && err == Lift(DispatchOutcome(cmds, addr, t.answer, old(t.requests)))
  {
    err := SendParsedTargets(RestartCommandType, args, port, AddressWithoutColon, t);
  }

  /** partition as evidently intended: the batch goes to the control address, as scale-in's does. */
  method CorrectedPartition(args: seq<string>, port: Option<int>, t: Transport) returns (err: Option<OpError>)
    modifies t
    ensures port.None? ==> err == Some(NoPlayground) && t.requests == old(t.requests) && t.stdout == old(t.stdout)
    ensures port.Some? ==>
      var cmds, addr := TargetBatch(PartitionCommandType, ParsedPids(args)), ControlAddress(port.value);
      Sent(t, old(t.requests), old(t.stdout), cmds, addr) && err == Lift(DispatchOutcome(cmds, addr, t.answer, old(t.requests)))
  {
    err := SendParsedTargets(PartitionCommandType, args, port, ControlAddress, t);
  }

  /** restart as evidently intended: the batch goes to the control address, as scale-in's does. */
  method CorrectedRestart(args: seq<string>, port: Option<int>, t: Transport) returns (err: Option<OpError>)
    modifies t
    ensures port.None? ==> err == Some(NoPlayground) && t.requests == old(t.requests) && t.stdout == old(t.stdout)
    ensures port.Some? ==>
      var cmds, addr := TargetBatch(RestartCommandType, ParsedPids(args)), ControlAddress(port.value);
      Sent(t, old(t.requests), old(t.stdout), cmds, addr) && err == Lift(DispatchOutcome(cmds, addr, t.answer, old(t.requests)))
  {
    err := SendParsedTargets(RestartCommandType, args, port, ControlAddress, t);
  }
}
