/**
 * Construction of the commands that `tiup playground` sends to a running
 * playground (components/playground/command.go): the command record, the
 * scale-out batch built from per-kind instance counts, the per-pid commands of
 * scale-in, partition and restart, and the control address.
 */
module PlaygroundCommand {
  import opened Common
  import Strconv

  datatype CommandType =
    ScaleInCommandType | ScaleOutCommandType | DisplayCommandType | RestartCommandType | PartitionCommandType

  /** The string each command type is sent as. */
  function WireName(t: CommandType): (w: string)
    ensures |w| > 0
  {
    match t
    case ScaleInCommandType => "scale-in"
    case ScaleOutCommandType => "scale-out"
    case DisplayCommandType => "display"
    case RestartCommandType => "handleRestart"
    case PartitionCommandType => "handlePartition"
  }

  /** The playground can tell every command type apart by its wire name. */
  lemma WireNamesDistinct(a: CommandType, b: CommandType)
    ensures WireName(a) == WireName(b) ==> a == b
  {
    match a
    case ScaleInCommandType => assert WireName(a)[6] == 'i';
    case ScaleOutCommandType => assert WireName(a)[6] == 'o';
    case DisplayCommandType => assert WireName(a)[0] == 'd';
    case RestartCommandType => assert WireName(a)[6] == 'R';
    case PartitionCommandType => assert WireName(a)[6] == 'P';
  }

  /** Per-kind instance settings: the desired count and what each new instance is started with. */
  datatype InstanceConfig = InstanceConfig(num: int, host: string, configPath: string, binPath: string)

  const NoConfig: InstanceConfig := InstanceConfig(0, "", "", "")

  /**
   * The command record as sent: one flat record for every type, the pid
   * filled in for the per-instance types and the component and its settings
   * for scale-out; unused fields keep their zero values.
   */
  datatype Command = Command(commandType: CommandType, pid: int, componentID: string, config: InstanceConfig)

  datatype Kind = PD | TiKV | Pump | TiFlash | TiDB | TiCDC | Drainer

  function KindName(k: Kind): string
  {
    match k
    case PD => "pd"
    case TiKV => "tikv"
    case Pump => "pump"
    case TiFlash => "tiflash"
    case TiDB => "tidb"
    case TiCDC => "ticdc"
    case Drainer => "drainer"
  }

  /** The fixed order in which scale-out walks the kinds. */
  const KindOrder: seq<Kind> := [PD, TiKV, Pump, TiFlash, TiDB, TiCDC, Drainer]

  function KindIndex(k: Kind): (i: nat)
    ensures i < |KindOrder| && KindOrder[i] == k
  {
    match k
    case PD => 0
    case TiKV => 1
    case Pump => 2
    case TiFlash => 3
    case TiDB => 4
    case TiCDC => 5
    case Drainer => 6
  }

  /** Position of a component name in the kind order; names outside it come last. */
  function Rank(id: string): nat
  {
    if id == "pd" then 0
    else if id == "tikv" then 1
    else if id == "pump" then 2
    else if id == "tiflash" then 3
    else if id == "tidb" then 4
    else if id == "ticdc" then 5
    else if id == "drainer" then 6
    else 7
  }

  lemma RankOfKindName(k: Kind)
    ensures Rank(KindName(k)) == KindIndex(k)
  {
    match k
    case PD =>
    case TiKV => assert KindName(k)[1] == 'i';
    case Pump => assert KindName(k)[0] == 'p';
    case TiFlash => assert KindName(k)[2] == 'f';
    case TiDB => assert KindName(k)[2] == 'd';
    case TiCDC => assert KindName(k)[2] == 'c';
    case Drainer => assert KindName(k)[0] == 'd';
  }

  /** The desired counts and settings of every kind. */
  datatype BootOptions = BootOptions(
    pd: InstanceConfig, tikv: InstanceConfig, pump: InstanceConfig, tiflash: InstanceConfig,
    tidb: InstanceConfig, ticdc: InstanceConfig, drainer: InstanceConfig)

  function ConfigOf(opt: BootOptions, k: Kind): InstanceConfig
  {
    match k
    case PD => opt.pd
    case TiKV => opt.tikv
    case Pump => opt.pump
    case TiFlash => opt.tiflash
    case TiDB => opt.tidb
    case TiCDC => opt.ticdc
    case Drainer => opt.drainer
  }

  /** How many instances a count asks for: a count of zero or below asks for none. */
  function Desired(c: InstanceConfig): nat
  {
    if c.num > 0 then c.num else 0
  }

  function TotalDesired(opt: BootOptions): nat
  {
    Desired(opt.pd) + Desired(opt.tikv) + Desired(opt.pump) + Desired(opt.tiflash)
    + Desired(opt.tidb) + Desired(opt.ticdc) + Desired(opt.drainer)
  }

  /** The command that adds one instance of kind k. */
  function KindCommand(tp: CommandType, opt: BootOptions, k: Kind): Command
  {
    Command(tp, 0, KindName(k), ConfigOf(opt, k))
  }

  /** n copies of one command. */
  function Repeat(c: Command, n: nat): (r: seq<Command>)
    ensures |r| == n
  {
    if n == 0 then [] else [c] + Repeat(c, n - 1)
  }

  lemma {:induction false} RepeatAt(c: Command, n: nat, i: nat)
    requires i < n
    ensures Repeat(c, n)[i] == c
  {
    if i > 0 {
      RepeatAt(c, n - 1, i - 1);
    }
  }

  /** The commands for the given kinds, in their order, each repeated as often as its count asks. */
  function BuildFrom(tp: CommandType, opt: BootOptions, kinds: seq<Kind>): seq<Command>
  {
    if kinds == [] then []
    else Repeat(KindCommand(tp, opt, kinds[0]), Desired(ConfigOf(opt, kinds[0])))
         + BuildFrom(tp, opt, kinds[1..])
  }

  function BuildCommands(tp: CommandType, opt: BootOptions): seq<Command>
  {
    BuildFrom(tp, opt, KindOrder)
  }

  lemma BuildFromStep(tp: CommandType, opt: BootOptions, idx: nat)
    requires idx < |KindOrder|
    ensures BuildFrom(tp, opt, KindOrder[idx..])
            == Repeat(KindCommand(tp, opt, KindOrder[idx]), Desired(ConfigOf(opt, KindOrder[idx])))
               + BuildFrom(tp, opt, KindOrder[idx + 1..])
  {
    assert KindOrder[idx..][1..] == KindOrder[idx + 1..];
  }

  lemma {:induction false} RepeatSnoc(c: Command, n: nat)
    ensures Repeat(c, n + 1) == Repeat(c, n) + [c]
  {
    if n > 0 {
      RepeatSnoc(c, n - 1);
    }
  }

  /** One round of the outer loop: the block of the next kind moves from the rest to the done part. */
  lemma OuterStep(tp: CommandType, opt: BootOptions, idx: nat, done: seq<Command>)
    requires idx < |KindOrder|
    requires done + BuildFrom(tp, opt, KindOrder[idx..]) == BuildCommands(tp, opt)
    ensures (done + Repeat(KindCommand(tp, opt, KindOrder[idx]), Desired(ConfigOf(opt, KindOrder[idx]))))
            + BuildFrom(tp, opt, KindOrder[idx + 1..]) == BuildCommands(tp, opt)
  {
    BuildFromStep(tp, opt, idx);
    AppendAssoc(done, Repeat(KindCommand(tp, opt, KindOrder[idx]), Desired(ConfigOf(opt, KindOrder[idx]))),
                BuildFrom(tp, opt, KindOrder[idx + 1..]));
  }

  /** The inner loop of buildCommands: one command of the kind per instance its configuration asks for. */
  method AppendInstances(cmds: seq<Command>, tp: CommandType, kind: Kind, cfg: InstanceConfig) returns (r: seq<Command>)
    ensures r == cmds + Repeat(Command(tp, 0, KindName(kind), cfg), Desired(cfg))
  {
    r := cmds;
    ghost var c := Command(tp, 0, KindName(kind), cfg);
    var i := 0;
    while i < cfg.num
      invariant 0 <= i <= Desired(cfg)
      invariant r == cmds + Repeat(c, i)
    {
      RepeatSnoc(c, i);
      AppendAssoc(cmds, Repeat(c, i), [c]);
      r := r + [Command(tp, 0, KindName(kind), cfg)];
      i := i + 1;
    }
  }

  /** The nested loop of buildCommands, appending to a fresh list. */
  method BuildCommandsLoop(tp: CommandType, opt: BootOptions) returns (cmds: seq<Command>)
    ensures cmds == BuildCommands(tp, opt)
  {
    cmds := [];
    assert KindOrder[0..] == KindOrder;
    for idx := 0 to |KindOrder|
      invariant cmds + BuildFrom(tp, opt, KindOrder[idx..]) == BuildCommands(tp, opt)
    {
      var kind := KindOrder[idx];
      ghost var done := cmds;
      cmds := AppendInstances(cmds, tp, kind, ConfigOf(opt, kind));
      OuterStep(tp, opt, idx, done);
    }
    assert KindOrder[|KindOrder|..] == [];
  }

  function SumDesired(opt: BootOptions, kinds: seq<Kind>): nat
  {
    if kinds == [] then 0 else Desired(ConfigOf(opt, kinds[0])) + SumDesired(opt, kinds[1..])
  }

  lemma {:induction false} BuildFromLength(tp: CommandType, opt: BootOptions, kinds: seq<Kind>)
    ensures |BuildFrom(tp, opt, kinds)| == SumDesired(opt, kinds)
    decreases |kinds|
  {
    if kinds != [] {
      BuildFromLength(tp, opt, kinds[1..]);
    }
  }

  /** Exactly one command per desired instance, summed over the seven kinds. */
  lemma BuildCommandsCount(tp: CommandType, opt: BootOptions)
    ensures |BuildCommands(tp, opt)| == TotalDesired(opt)
  {
    BuildFromLength(tp, opt, KindOrder);
    var k6: seq<Kind> := [Drainer];
    var k5: seq<Kind> := [TiCDC] + k6;
    var k4: seq<Kind> := [TiDB] + k5;
    var k3: seq<Kind> := [TiFlash] + k4;
    var k2: seq<Kind> := [Pump] + k3;
    var k1: seq<Kind> := [TiKV] + k2;
    assert KindOrder == [PD] + k1;
    assert k6[1..] == [] && k5[1..] == k6 && k4[1..] == k5 && k3[1..] == k4 && k2[1..] == k3 && k1[1..] == k2;
    calc {
      SumDesired(opt, KindOrder);
      Desired(opt.pd) + SumDesired(opt, k1);
      Desired(opt.pd) + Desired(opt.tikv) + SumDesired(opt, k2);
      Desired(opt.pd) + Desired(opt.tikv) + Desired(opt.pump) + SumDesired(opt, k3);
      Desired(opt.pd) + Desired(opt.tikv) + Desired(opt.pump) + Desired(opt.tiflash) + SumDesired(opt, k4);
      Desired(opt.pd) + Desired(opt.tikv) + Desired(opt.pump) + Desired(opt.tiflash) + Desired(opt.tidb)
        + SumDesired(opt, k5);
      Desired(opt.pd) + Desired(opt.tikv) + Desired(opt.pump) + Desired(opt.tiflash) + Desired(opt.tidb)
        + Desired(opt.ticdc) + SumDesired(opt, k6);
      TotalDesired(opt);
    }
  }

  /** Every command of BuildFrom adds one instance of one of the listed kinds that asks for any. */
  lemma {:induction false} BuildFromShape(tp: CommandType, opt: BootOptions, kinds: seq<Kind>, i: nat)
    requires i < |BuildFrom(tp, opt, kinds)|
    ensures exists t :: 0 <= t < |kinds| && BuildFrom(tp, opt, kinds)[i] == KindCommand(tp, opt, kinds[t])
              && Desired(ConfigOf(opt, kinds[t])) > 0
    ensures kinds != [] && BuildFrom(tp, opt, kinds)[i].componentID != KindName(kinds[0]) ==>
              i >= Desired(ConfigOf(opt, kinds[0]))
    decreases |kinds|
  {
    var d := Desired(ConfigOf(opt, kinds[0]));
    if i >= d {
      BuildFromShape(tp, opt, kinds[1..], i - d);
      var t :| 0 <= t < |kinds[1..]| && BuildFrom(tp, opt, kinds[1..])[i - d] == KindCommand(tp, opt, kinds[1..][t])
               && Desired(ConfigOf(opt, kinds[1..][t])) > 0;
      assert kinds[t + 1] == kinds[1..][t];
    } else {
      RepeatAt(KindCommand(tp, opt, kinds[0]), d, i);
    }
  }

  /**
   * Every scale-out command carries the requested type, pid 0, and the name
   * and unchanged settings of a kind whose count is positive.
   */
  lemma BuildCommandsShape(tp: CommandType, opt: BootOptions, i: nat)
    requires i < |BuildCommands(tp, opt)|
    ensures var c := BuildCommands(tp, opt)[i];
      c.commandType == tp && c.pid == 0
      && exists k :: c.componentID == KindName(k) && c.config == ConfigOf(opt, k) && ConfigOf(opt, k).num > 0
  {
    BuildFromShape(tp, opt, KindOrder, i);
  }

  /** A list of kinds that follows the kind order and names no kind twice. */
  predicate SortedKinds(kinds: seq<Kind>)
  {
    forall i, j :: 0 <= i < j < |kinds| ==> KindIndex(kinds[i]) < KindIndex(kinds[j])
  }

  lemma KindOrderSorted()
    ensures SortedKinds(KindOrder)
  {
    forall i | 0 <= i < |KindOrder| ensures KindIndex(KindOrder[i]) == i {
      if i == 0 {} else if i == 1 {} else if i == 2 {} else if i == 3 {}
      else if i == 4 {} else if i == 5 {} else {}
    }
  }

  predicate RanksAtLeast(cmds: seq<Command>, r: nat)
  {
    forall i :: 0 <= i < |cmds| ==> Rank(cmds[i].componentID) >= r
  }

  predicate OrderedByKind(cmds: seq<Command>)
  {
    forall i, j :: 0 <= i < j < |cmds| ==> Rank(cmds[i].componentID) <= Rank(cmds[j].componentID)
  }

  lemma {:induction false} BuildFromOrdered(tp: CommandType, opt: BootOptions, kinds: seq<Kind>)
    requires SortedKinds(kinds)
    ensures OrderedByKind(BuildFrom(tp, opt, kinds))
    ensures kinds != [] ==> RanksAtLeast(BuildFrom(tp, opt, kinds), KindIndex(kinds[0]))
    decreases |kinds|
  {
    if kinds != [] {
      var k := kinds[0];
      var c := KindCommand(tp, opt, k);
      var block := Repeat(c, Desired(ConfigOf(opt, k)));
      var rest := BuildFrom(tp, opt, kinds[1..]);
      BuildFromOrdered(tp, opt, kinds[1..]);
      RankOfKindName(k);
      var r := KindIndex(k);
      assert RanksAtLeast(rest, r) by {
        if kinds[1..] != [] {
          assert KindIndex(kinds[1..][0]) > r;
        }
      }
      forall i | 0 <= i < |block| ensures Rank(block[i].componentID) == r {
        RepeatAt(c, |block|, i);
      }
      OrderedAppend(block, rest, r);
    }
  }

  /** A block of one rank followed by an ordered run of ranks at least as high is ordered. */
  lemma OrderedAppend(block: seq<Command>, rest: seq<Command>, r: nat)
    requires forall i :: 0 <= i < |block| ==> Rank(block[i].componentID) == r
    requires OrderedByKind(rest) && RanksAtLeast(rest, r)
    ensures OrderedByKind(block + rest) && RanksAtLeast(block + rest, r)
  {
    var out := block + rest;
    forall i | 0 <= i < |out| ensures Rank(out[i].componentID) >= r {
      if i >= |block| {
        assert out[i] == rest[i - |block|];
      }
    }
    forall i, j | 0 <= i < j < |out| ensures Rank(out[i].componentID) <= Rank(out[j].componentID) {
      if i >= |block| {
        assert out[i] == rest[i - |block|] && out[j] == rest[j - |block|];
      } else if j >= |block| {
        assert out[j] == rest[j - |block|];
      }
    }
  }

  lemma BuildCommandsOrdered(tp: CommandType, opt: BootOptions)
    ensures OrderedByKind(BuildCommands(tp, opt))
  {
    KindOrderSorted();
    BuildFromOrdered(tp, opt, KindOrder);
  }

  /** The commands of one kind are contiguous: nothing of another kind sits between two of them. */
  lemma BuildCommandsContiguous(tp: CommandType, opt: BootOptions, i: nat, j: nat, l: nat)
    requires i < j < l < |BuildCommands(tp, opt)|
    requires BuildCommands(tp, opt)[i].componentID == BuildCommands(tp, opt)[l].componentID
    ensures BuildCommands(tp, opt)[j].componentID == BuildCommands(tp, opt)[i].componentID
  {
    var cmds := BuildCommands(tp, opt);
    BuildCommandsOrdered(tp, opt);
    BuildCommandsShape(tp, opt, i);
    BuildCommandsShape(tp, opt, j);
    var ki :| cmds[i].componentID == KindName(ki) && cmds[i].config == ConfigOf(opt, ki) && ConfigOf(opt, ki).num > 0;
    var kj :| cmds[j].componentID == KindName(kj) && cmds[j].config == ConfigOf(opt, kj) && ConfigOf(opt, kj).num > 0;
    RankOfKindName(ki);
    RankOfKindName(kj);
    assert KindIndex(ki) == KindIndex(kj);
  }

  function CountNamed(cmds: seq<Command>, id: string): nat
  {
    if cmds == [] then 0
    else (if cmds[0].componentID == id then 1 else 0) + CountNamed(cmds[1..], id)
  }

  lemma {:induction false} CountNamedAppend(a: seq<Command>, b: seq<Command>, id: string)
    ensures CountNamed(a + b, id) == CountNamed(a, id) + CountNamed(b, id)
    decreases |a|
  {
    if a != [] {
      assert (a + b)[0] == a[0] && (a + b)[1..] == a[1..] + b;
      CountNamedAppend(a[1..], b, id);
    } else {
      assert a + b == b;
    }
  }

  lemma {:induction false} CountNamedRepeat(c: Command, n: nat, id: string)
    ensures CountNamed(Repeat(c, n), id) == if c.componentID == id then n else 0
  {
    if n > 0 {
      CountNamedRepeat(c, n - 1, id);
    }
  }

  lemma {:induction false} CountNamedBuildFrom(tp: CommandType, opt: BootOptions, kinds: seq<Kind>, k: Kind)
    requires SortedKinds(kinds)
    ensures CountNamed(BuildFrom(tp, opt, kinds), KindName(k)) == if k in kinds then Desired(ConfigOf(opt, k)) else 0
    decreases |kinds|
  {
    if kinds != [] {
      var h := kinds[0];
      var block := Repeat(KindCommand(tp, opt, h), Desired(ConfigOf(opt, h)));
      CountNamedBuildFrom(tp, opt, kinds[1..], k);
      CountNamedAppend(block, BuildFrom(tp, opt, kinds[1..]), KindName(k));
      CountNamedRepeat(KindCommand(tp, opt, h), Desired(ConfigOf(opt, h)), KindName(k));
      RankOfKindName(h);
      RankOfKindName(k);
      assert (k in kinds) == (k == h || k in kinds[1..]);
      if k == h {
        assert k !in kinds[1..] by {
          forall t | 0 <= t < |kinds[1..]| ensures kinds[1..][t] != k {
            assert KindIndex(kinds[0]) < KindIndex(kinds[t + 1]);
          }
        }
      }
    }
  }

  /** Each kind contributes exactly as many commands as its count asks for. */
  lemma BuildCommandsPerKind(tp: CommandType, opt: BootOptions, k: Kind)
    ensures CountNamed(BuildCommands(tp, opt), KindName(k)) == Desired(ConfigOf(opt, k))
  {
    KindOrderSorted();
    CountNamedBuildFrom(tp, opt, KindOrder, k);
    assert k == KindOrder[KindIndex(k)];
  }

  /** The command that acts on one existing instance: only its type and pid are set. */
  function TargetCommand(tp: CommandType, pid: int): Command
  {
    Command(tp, pid, "", NoConfig)
  }

  const DisplayCommand: Command := Command(DisplayCommandType, 0, "", NoConfig)

  /** scaleIn's loop: one scale-in command per pid, in the given order. */
  method ScaleInCommands(pids: seq<int>) returns (cmds: seq<Command>)
    ensures |cmds| == |pids|
    ensures forall i :: 0 <= i < |pids| ==> cmds[i] == TargetCommand(ScaleInCommandType, pids[i])
  {
    cmds := [];
    for n := 0 to |pids|
      invariant |cmds| == n
      invariant forall i :: 0 <= i < n ==> cmds[i] == TargetCommand(ScaleInCommandType, pids[i])
    {
      cmds := cmds + [Command(ScaleInCommandType, pids[n], "", NoConfig)];
    }
  }

  /**
   * The loop shared by partition and restart: one command per argument, in
   * order, its pid read with Atoi whose error is ignored, so an argument that
   * is not a number targets pid 0 and an out-of-range one the nearest int bound.
   */
  method ParsedTargetCommands(tp: CommandType, args: seq<string>) returns (cmds: seq<Command>)
    ensures |cmds| == |args|
    ensures forall i :: 0 <= i < |args| ==> cmds[i] == TargetCommand(tp, Strconv.Atoi(args[i]).value)
  {
    cmds := [];
    for n := 0 to |args|
      invariant |cmds| == n
      invariant forall i :: 0 <= i < n ==> cmds[i] == TargetCommand(tp, Strconv.Atoi(args[i]).value)
    {
      var pid := Strconv.Atoi(args[n]).value;
      cmds := cmds + [Command(tp, pid, "", NoConfig)];
    }
  }

  /**
   * A pid argument of an optional sign and decimal digits (leading zeros
   * allowed) targets the value they denote, or the nearest int bound when it
   * does not fit; one that is empty, a bare sign, or has a non-digit after
   * its sign and digits (at position j of the unsigned part) targets pid 0.
   */
  lemma ParsedTargetPid(tp: CommandType, sign: string, ds: string, j: nat)
    requires sign == "" || sign == "-" || sign == "+"
    ensures |ds| > 0 && Strconv.AllDigits(ds) ==>
      var v: int := if sign == "-" then 0 - Strconv.Horner(0, ds) else Strconv.Horner(0, ds);
      TargetCommand(tp, Strconv.Atoi(sign + ds).value).pid == if IsInt64(v) then v else if v < 0 then MinInt64 else MaxInt64
    ensures (sign == "" && |ds| > 0 ==> ds[0] != '+' && ds[0] != '-') &&
            (ds == [] || (j < |ds| && Strconv.AllDigits(ds[..j]) && !Strconv.IsDigit(ds[j]) && Strconv.Horner(0, ds[..j]) <= MaxUint64)) ==>
      TargetCommand(tp, Strconv.Atoi(sign + ds).value).pid == 0
  {
    if |ds| > 0 && Strconv.AllDigits(ds) {
      Strconv.AtoiDigits(sign, ds);
    }
    if (sign == "" && |ds| > 0 ==> ds[0] != '+' && ds[0] != '-') &&
       (ds == [] || (j < |ds| && Strconv.AllDigits(ds[..j]) && !Strconv.IsDigit(ds[j]) && Strconv.Horner(0, ds[..j]) <= MaxUint64)) {
      Strconv.AtoiSyntax(sign, ds, j);
    }
  }

  const LoopbackHost: string := "127.0.0.1"

  /** The playground's control address: the loopback host, a colon, the decimal port. */
  function ControlAddress(port: int): string
  {
    LoopbackHost + ":" + Strconv.Itoa(port)
  }

  /** The control address splits at its only colon into the loopback host and a part that reads back as the port. */
  lemma ControlAddressSplits(port: int)
    requires IsInt64(port)
    ensures var a := ControlAddress(port);
      a[..|LoopbackHost|] == LoopbackHost && a[|LoopbackHost|] == ':'
      && (forall i :: 0 <= i < |a| && i != |LoopbackHost| ==> a[i] != ':')
      && Strconv.Atoi(a[|LoopbackHost| + 1..]) == Strconv.Parsed(port, None)
  {
    var a := ControlAddress(port);
    assert a[|LoopbackHost| + 1..] == Strconv.Itoa(port);
    Strconv.AtoiItoa(port);
  }

  /** The address partition and restart build: the port appended to the host with no colon. */
  function AddressWithoutColon(port: int): string
  {
    LoopbackHost + Strconv.Itoa(port)
  }

  /** That address never holds a colon, so it names no port; for port 9527 it reads "127.0.0.19527". */
  lemma AddressWithoutColonHasNoPort(port: int)
    ensures forall i :: 0 <= i < |AddressWithoutColon(port)| ==> AddressWithoutColon(port)[i] != ':'
    ensures AddressWithoutColon(port) != ControlAddress(port)
    ensures AddressWithoutColon(9527) == "127.0.0.19527"
  {
    var a := ControlAddress(port);
    assert a[|LoopbackHost|] == ':';
    assert Strconv.Digits(9527) == "9527" by {
      assert Strconv.Digits(9) == "9";
      assert Strconv.Digits(95) == "95";
      assert Strconv.Digits(952) == "952";
    }
  }
}
