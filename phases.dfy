/**
  The order in which `run` sends work to the nodes. Every remote step is an
  opaque named action; a run is recorded as the sequence of `(step, alias)`
  dispatches it submits. The thread pool is replaced by a sequential loop over
  each group. A phase ends at each `pool.wait` and at each of the two direct
  calls to the master, which return before `run` goes on.
*/
module Phases {
  /** The remote actions of the plugin; two of them carry the text the plugin renders. */
  datatype Step =
    | PurgeMysql
    | InstallLibs
    | CreateMysqlUserGroup
    | FetchClusterPackage
    | CopyManagementScripts
    | CopyDataNodeScripts
    | CopySqlNodeScripts
    | ConfigureManagementNode(command: string)
    | ConfigureDataNode
    | ConfigureSqlNode
    | UpdateAppArmor
    | InstallSqlDatabase
    | StartManagementNode
    | StartDataNode
    | StartSqlNode
    | AddRemoteUsers(command: string)

  /** One step sent to the node with the given alias. */
  datatype Dispatch = Dispatch(step: Step, alias: string)

  /** A phase: the steps each node of the group receives, and the group, in dispatch order. */
  datatype Phase = Phase(steps: seq<Step>, group: seq<string>)

  /**
    The position of a step's phase in the run: how many phase ends (a
    `pool.wait` or a direct call to the master) come before its submission.
  */
  function Barrier(step: Step): nat {
    match step
    case PurgeMysql => 0
    case InstallLibs => 1
    case CreateMysqlUserGroup => 1
    case FetchClusterPackage => 2
    case CopyManagementScripts => 3
    case CopyDataNodeScripts => 4
    case CopySqlNodeScripts => 5
    case ConfigureManagementNode(_) => 6
    case ConfigureDataNode => 7
    case ConfigureSqlNode => 8
    case UpdateAppArmor => 8
    case InstallSqlDatabase => 8
    case StartManagementNode => 9
    case StartDataNode => 10
    case StartSqlNode => 11
    case AddRemoteUsers(_) => 12
  }

  /** The steps one node receives within a phase, in order. */
  function NodeDispatches(steps: seq<Step>, alias: string): (r: seq<Dispatch>)
    ensures |r| == |steps|
  {
    if steps == [] then [] else [Dispatch(steps[0], alias)] + NodeDispatches(steps[1..], alias)
  }

  /** Each step of the node's sequence becomes one dispatch to that node, at the same position. */
  lemma {:induction false} NodeDispatchesAt(steps: seq<Step>, alias: string)
    ensures forall i :: 0 <= i < |steps| ==> NodeDispatches(steps, alias)[i] == Dispatch(steps[i], alias)
  {
    if steps != [] {
      NodeDispatchesAt(steps[1..], alias);
    }
  }

  /** One more step appends one dispatch: the step of the per-node loop. */
  lemma {:induction false} NodeDispatchesSnoc(steps: seq<Step>, step: Step, alias: string)
    ensures NodeDispatches(steps + [step], alias) == NodeDispatches(steps, alias) + [Dispatch(step, alias)]
  {
    if steps == [] {
      assert [step][1..] == [];
    } else {
      assert (steps + [step])[1..] == steps[1..] + [step];
      NodeDispatchesSnoc(steps[1..], step, alias);
    }
  }

  /** A phase: every node of the group in order, each receiving all the steps. */
  function PhaseTrace(steps: seq<Step>, group: seq<string>): seq<Dispatch> {
    if group == [] then [] else NodeDispatches(steps, group[0]) + PhaseTrace(steps, group[1..])
  }

  /** Dispatching to one more node appends that node's steps: the step of the phase loop. */
  lemma {:induction false} PhaseTraceSnoc(steps: seq<Step>, group: seq<string>, alias: string)
    ensures PhaseTrace(steps, group + [alias]) == PhaseTrace(steps, group) + NodeDispatches(steps, alias)
  {
    if group == [] {
      assert [alias][1..] == [];
    } else {
      assert (group + [alias])[1..] == group[1..] + [alias];
      PhaseTraceSnoc(steps, group[1..], alias);
    }
  }

  /** The phases one after the other. */
  function Flatten(phases: seq<Phase>): seq<Dispatch> {
    if phases == [] then [] else PhaseTrace(phases[0].steps, phases[0].group) + Flatten(phases[1..])
  }

  lemma {:induction false} FlattenSnoc(phases: seq<Phase>, phase: Phase)
    ensures Flatten(phases + [phase]) == Flatten(phases) + PhaseTrace(phase.steps, phase.group)
  {
    if phases == [] {
      assert [phase][1..] == [];
    } else {
      assert (phases + [phase])[1..] == phases[1..] + [phase];
      FlattenSnoc(phases[1..], phase);
    }
  }

  lemma FlattenStep(phases: seq<Phase>, k: nat)
    requires k < |phases|
    ensures Flatten(phases[..k + 1]) == Flatten(phases[..k]) + PhaseTrace(phases[k].steps, phases[k].group)
  {
    assert phases[..k + 1] == phases[..k] + [phases[k]];
    FlattenSnoc(phases[..k], phases[k]);
  }

  /**
    The phases of `run`, given the aliases of all nodes, of the master, of the
    data nodes and of the SQL nodes, and the two commands the plugin renders.
  */
  function Schedule(all: seq<string>, master: string, data: seq<string>, sql: seq<string>,
                    configCommand: string, userCommand: string): seq<Phase>
  {
    [ Phase([PurgeMysql], all),
      Phase([InstallLibs, CreateMysqlUserGroup], data + sql),
      Phase([FetchClusterPackage], all),
      Phase([CopyManagementScripts], [master]),
      Phase([CopyDataNodeScripts], data),
      Phase([CopySqlNodeScripts], sql),
      Phase([ConfigureManagementNode(configCommand)], [master]),
      Phase([ConfigureDataNode], data),
      Phase([ConfigureSqlNode, UpdateAppArmor, InstallSqlDatabase], sql),
      Phase([StartManagementNode], [master]),
      Phase([StartDataNode], data),
      Phase([StartSqlNode], sql),
      Phase([AddRemoteUsers(userCommand)], sql) ]
  }

  /** The first six phases: clean-up, libraries, package, and the scripts of each role. */
  function InstallSchedule(all: seq<string>, master: string, data: seq<string>, sql: seq<string>): seq<Phase> {
    [ Phase([PurgeMysql], all),
      Phase([InstallLibs, CreateMysqlUserGroup], data + sql),
      Phase([FetchClusterPackage], all),
      Phase([CopyManagementScripts], [master]),
      Phase([CopyDataNodeScripts], data),
      Phase([CopySqlNodeScripts], sql) ]
  }

  /** The three configuration phases: management node, data nodes, SQL nodes. */
  function ConfigureSchedule(master: string, data: seq<string>, sql: seq<string>, configCommand: string): seq<Phase> {
    [ Phase([ConfigureManagementNode(configCommand)], [master]),
      Phase([ConfigureDataNode], data),
      Phase([ConfigureSqlNode, UpdateAppArmor, InstallSqlDatabase], sql) ]
  }

  /** The start-up phases, master first, then the user creation on the SQL nodes. */
  function StartSchedule(master: string, data: seq<string>, sql: seq<string>, userCommand: string): seq<Phase> {
    [ Phase([StartManagementNode], [master]),
      Phase([StartDataNode], data),
      Phase([StartSqlNode], sql),
      Phase([AddRemoteUsers(userCommand)], sql) ]
  }

  lemma {:induction false} FlattenAppend(a: seq<Phase>, b: seq<Phase>)
    ensures Flatten(a + b) == Flatten(a) + Flatten(b)
    decreases |b|
  {
    if b == [] {
      assert a + b == a;
    } else {
      var init, last := b[..|b| - 1], b[|b| - 1];
      assert b == init + [last];
      assert a + b == (a + init) + [last];
      FlattenSnoc(a + init, last);
      FlattenAppend(a, init);
      FlattenSnoc(init, last);
    }
  }

  /** `run`'s schedule is the install, configure and start groups one after the other. */
  lemma RunTraceGroups(all: seq<string>, master: string, data: seq<string>, sql: seq<string>,
                       configCommand: string, userCommand: string)
    ensures RunTrace(all, master, data, sql, configCommand, userCommand)
         == Flatten(InstallSchedule(all, master, data, sql))
          + Flatten(ConfigureSchedule(master, data, sql, configCommand))
          + Flatten(StartSchedule(master, data, sql, userCommand))
  {
    var i := InstallSchedule(all, master, data, sql);
    var c := ConfigureSchedule(master, data, sql, configCommand);
    var t := StartSchedule(master, data, sql, userCommand);
    assert Schedule(all, master, data, sql, configCommand, userCommand) == i + c + t;
    FlattenAppend(i + c, t);
    FlattenAppend(i, c);
  }

  /** A record that grows by the six install phases in order has grown by the install group. */
  lemma InstallGroup(s0: seq<Dispatch>, s1: seq<Dispatch>, s2: seq<Dispatch>, s3: seq<Dispatch>,
                     s4: seq<Dispatch>, s5: seq<Dispatch>, s6: seq<Dispatch>,
                     all: seq<string>, master: string, data: seq<string>, sql: seq<string>)
    requires s1 == s0 + PhaseTrace([PurgeMysql], all)
    requires s2 == s1 + PhaseTrace([InstallLibs, CreateMysqlUserGroup], data + sql)
    requires s3 == s2 + PhaseTrace([FetchClusterPackage], all)
    requires s4 == s3 + PhaseTrace([CopyManagementScripts], [master])
    requires s5 == s4 + PhaseTrace([CopyDataNodeScripts], data)
    requires s6 == s5 + PhaseTrace([CopySqlNodeScripts], sql)
    ensures s6 == s0 + Flatten(InstallSchedule(all, master, data, sql))
  {
    GroupSteps([s0, s1, s2, s3, s4, s5, s6], InstallSchedule(all, master, data, sql));
  }

  /** A record that grows by the three configure phases in order has grown by the configure group. */
  lemma ConfigureGroup(s0: seq<Dispatch>, s1: seq<Dispatch>, s2: seq<Dispatch>, s3: seq<Dispatch>,
                       master: string, data: seq<string>, sql: seq<string>, configCommand: string)
    requires s1 == s0 + PhaseTrace([ConfigureManagementNode(configCommand)], [master])
    requires s2 == s1 + PhaseTrace([ConfigureDataNode], data)
    requires s3 == s2 + PhaseTrace([ConfigureSqlNode, UpdateAppArmor, InstallSqlDatabase], sql)
    ensures s3 == s0 + Flatten(ConfigureSchedule(master, data, sql, configCommand))
  {
    GroupSteps([s0, s1, s2, s3], ConfigureSchedule(master, data, sql, configCommand));
  }

  /** A record that grows by the four start phases in order has grown by the start group. */
  lemma StartGroup(s0: seq<Dispatch>, s1: seq<Dispatch>, s2: seq<Dispatch>, s3: seq<Dispatch>, s4: seq<Dispatch>,
                   master: string, data: seq<string>, sql: seq<string>, userCommand: string)
    requires s1 == s0 + PhaseTrace([StartManagementNode], [master])
    requires s2 == s1 + PhaseTrace([StartDataNode], data)
    requires s3 == s2 + PhaseTrace([StartSqlNode], sql)
    requires s4 == s3 + PhaseTrace([AddRemoteUsers(userCommand)], sql)
    ensures s4 == s0 + Flatten(StartSchedule(master, data, sql, userCommand))
  {
    GroupSteps([s0, s1, s2, s3, s4], StartSchedule(master, data, sql, userCommand));
  }

  /** Records `s[0]`, `s[1]`, ... that grow by one phase at a time have grown by all of them. */
  lemma {:induction false} GroupSteps(s: seq<seq<Dispatch>>, phases: seq<Phase>)
    requires |s| == |phases| + 1
    requires forall k :: 0 <= k < |phases| ==> s[k + 1] == s[k] + PhaseTrace(phases[k].steps, phases[k].group)
    ensures s[|phases|] == s[0] + Flatten(phases)
    decreases |phases|
  {
    if phases == [] {
    } else {
      var n := |phases| - 1;
      GroupSteps(s[..n + 1], phases[..n]);
      FlattenStep(phases, n);
      assert phases[..n + 1] == phases;
    }
  }

  /**
    A record that grows by the install group, then the configure group, then
    the start group has grown by `RunTrace`.
  */
  lemma {:induction false} GroupsMakeRunTrace(s0: seq<Dispatch>, s1: seq<Dispatch>, s2: seq<Dispatch>, s3: seq<Dispatch>,
                                              all: seq<string>, master: string, data: seq<string>, sql: seq<string>,
                                              configCommand: string, userCommand: string)
    requires s1 == s0 + Flatten(InstallSchedule(all, master, data, sql))
    requires s2 == s1 + Flatten(ConfigureSchedule(master, data, sql, configCommand))
    requires s3 == s2 + Flatten(StartSchedule(master, data, sql, userCommand))
    ensures s3 == s0 + RunTrace(all, master, data, sql, configCommand, userCommand)
  {
    RunTraceGroups(all, master, data, sql, configCommand, userCommand);
  }

  /** Everything `run` dispatches after its checks pass, in order. */
  function RunTrace(all: seq<string>, master: string, data: seq<string>, sql: seq<string>,
                    configCommand: string, userCommand: string): seq<Dispatch>
  {
    Flatten(Schedule(all, master, data, sql, configCommand, userCommand))
  }

  /** No dispatch of a later phase comes before a dispatch of an earlier one. */
  predicate Ordered(trace: seq<Dispatch>) {
    forall i, j :: 0 <= i < j < |trace| ==> Barrier(trace[i].step) <= Barrier(trace[j].step)
  }

  /** Every step of phase `k` of `phases` has barrier `base + k`. */
  predicate Banded(phases: seq<Phase>, base: nat) {
    forall k, i :: 0 <= k < |phases| && 0 <= i < |phases[k].steps| ==> Barrier(phases[k].steps[i]) == base + k
  }

  lemma {:induction false} PhaseTraceBarriers(steps: seq<Step>, group: seq<string>, b: nat)
    requires forall i :: 0 <= i < |steps| ==> Barrier(steps[i]) == b
    ensures forall i :: 0 <= i < |PhaseTrace(steps, group)| ==> Barrier(PhaseTrace(steps, group)[i].step) == b
  {
    if group != [] {
      NodeDispatchesAt(steps, group[0]);
      PhaseTraceBarriers(steps, group[1..], b);
    }
  }

  /** Dropping the first phase of a banded schedule leaves one banded from the next barrier. */
  lemma BandedTail(phases: seq<Phase>, base: nat)
    requires phases != [] && Banded(phases, base)
    ensures Banded(phases[1..], base + 1)
  {
    forall k, i | 0 <= k < |phases[1..]| && 0 <= i < |phases[1..][k].steps|
      ensures Barrier(phases[1..][k].steps[i]) == base + 1 + k
    {
      assert phases[1..][k] == phases[k + 1];
    }
  }

  lemma {:induction false} FlattenOrdered(phases: seq<Phase>, base: nat)
    requires Banded(phases, base)
    ensures Ordered(Flatten(phases))
    ensures forall i :: 0 <= i < |Flatten(phases)| ==> Barrier(Flatten(phases)[i].step) >= base
  {
    if phases != [] {
      var first := PhaseTrace(phases[0].steps, phases[0].group);
      BandedTail(phases, base);
      FlattenOrdered(phases[1..], base + 1);
      PhaseTraceBarriers(phases[0].steps, phases[0].group, base);
      var t := Flatten(phases);
      assert t == first + Flatten(phases[1..]);
      forall i, j | 0 <= i < j < |t|
        ensures Barrier(t[i].step) <= Barrier(t[j].step)
      {
        if j < |first| {
          assert t[i] == first[i] && t[j] == first[j];
        } else if i < |first| {
          assert t[i] == first[i] && t[j] == Flatten(phases[1..])[j - |first|];
        } else {
          assert t[i] == Flatten(phases[1..])[i - |first|] && t[j] == Flatten(phases[1..])[j - |first|];
        }
      }
    }
  }

  /** The aliases that received `step`, in dispatch order. */
  function Targets(trace: seq<Dispatch>, step: Step): seq<string> {
    if trace == [] then []
    else (if trace[0].step == step then [trace[0].alias] else []) + Targets(trace[1..], step)
  }

  lemma {:induction false} TargetsAppend(a: seq<Dispatch>, b: seq<Dispatch>, step: Step)
    ensures Targets(a + b, step) == Targets(a, step) + Targets(b, step)
  {
    if a == [] {
      assert a + b == b;
    } else {
      assert (a + b)[1..] == a[1..] + b;
      TargetsAppend(a[1..], b, step);
    }
  }

  /** How many times `step` occurs in `steps`. */
  function Occurrences(steps: seq<Step>, step: Step): nat {
    if steps == [] then 0 else (if steps[0] == step then 1 else 0) + Occurrences(steps[1..], step)
  }

  /** `n` copies of `alias`. */
  function Copies(alias: string, n: nat): seq<string> {
    if n == 0 then [] else [alias] + Copies(alias, n - 1)
  }

  /** Each alias of `group` in turn, `n` times over. */
  function EachCopied(group: seq<string>, n: nat): seq<string> {
    if group == [] then [] else Copies(group[0], n) + EachCopied(group[1..], n)
  }

  lemma {:induction false} EachCopiedOnce(group: seq<string>)
    ensures EachCopied(group, 1) == group
  {
    if group != [] {
      EachCopiedOnce(group[1..]);
      assert Copies(group[0], 1) == [group[0]];
      assert [group[0]] + group[1..] == group;
    }
  }

  lemma {:induction false} EachCopiedNone(group: seq<string>)
    ensures EachCopied(group, 0) == []
  {
    if group != [] {
      EachCopiedNone(group[1..]);
    }
  }

  /** A step whose barrier differs from that of every step of `steps` does not occur in it. */
  lemma {:induction false} OccurrencesOutside(steps: seq<Step>, b: nat, step: Step)
    requires forall i :: 0 <= i < |steps| ==> Barrier(steps[i]) == b
    requires Barrier(step) != b
    ensures Occurrences(steps, step) == 0
  {
    if steps != [] {
      assert Barrier(steps[0]) == b;
      OccurrencesOutside(steps[1..], b, step);
    }
  }

  /** A node receives `step` as often as the phase lists it. */
  lemma {:induction false} TargetsNode(steps: seq<Step>, alias: string, step: Step)
    ensures Targets(NodeDispatches(steps, alias), step) == Copies(alias, Occurrences(steps, step))
  {
    if steps != [] {
      var head := [Dispatch(steps[0], alias)];
      TargetsAppend(head, NodeDispatches(steps[1..], alias), step);
      assert Targets(head, step) == if steps[0] == step then [alias] else [] by {
        assert head[1..] == [];
      }
      TargetsNode(steps[1..], alias, step);
    }
  }

  /** Within a phase, each node of the group in turn receives `step` as often as the phase lists it. */
  lemma {:induction false} TargetsPhase(steps: seq<Step>, group: seq<string>, step: Step)
    ensures Targets(PhaseTrace(steps, group), step) == EachCopied(group, Occurrences(steps, step))
  {
    if group != [] {
      TargetsAppend(NodeDispatches(steps, group[0]), PhaseTrace(steps, group[1..]), step);
      TargetsNode(steps, group[0], step);
      TargetsPhase(steps, group[1..], step);
    }
  }

  /**
    The group of the phase at `step`'s barrier (counted from `base`), each
    node as often as that phase lists `step`.
  */
  function BarrierGroup(phases: seq<Phase>, base: nat, step: Step): seq<string> {
    var k := Barrier(step) - base;
    if 0 <= k < |phases| then EachCopied(phases[k].group, Occurrences(phases[k].steps, step)) else []
  }

  /** Away from the first barrier, dropping the first phase and moving the base up changes nothing. */
  lemma BarrierGroupTail(phases: seq<Phase>, base: nat, step: Step)
    requires phases != [] && Barrier(step) != base
    ensures BarrierGroup(phases[1..], base + 1, step) == BarrierGroup(phases, base, step)
  {
    var k := Barrier(step) - base;
    if 0 < k < |phases| {
      assert phases[1..][k - 1] == phases[k];
    }
  }

  /** A step of the first phase's barrier reaches that phase's group and nothing later. */
  lemma TargetsFlattenHead(phases: seq<Phase>, base: nat, step: Step)
    requires phases != [] && Banded(phases, base) && Barrier(step) == base
    ensures Targets(Flatten(phases), step) == BarrierGroup(phases, base, step)
    decreases |phases|, 0
  {
    var first, rest := PhaseTrace(phases[0].steps, phases[0].group), Flatten(phases[1..]);
    assert Flatten(phases) == first + rest;
    TargetsAppend(first, rest, step);
    BandedTail(phases, base);
    TargetsFlatten(phases[1..], base + 1, step);
    TargetsPhase(phases[0].steps, phases[0].group, step);
  }

  /**
    A step of another barrier is not in the first phase, so it reaches what it
    reaches in the later phases.
  */
  lemma TargetsFlattenLater(phases: seq<Phase>, base: nat, step: Step)
    requires phases != [] && Banded(phases, base) && Barrier(step) != base
    ensures Targets(Flatten(phases), step) == BarrierGroup(phases, base, step)
    decreases |phases|, 0
  {
    var first, rest := PhaseTrace(phases[0].steps, phases[0].group), Flatten(phases[1..]);
    assert Flatten(phases) == first + rest;
    TargetsAppend(first, rest, step);
    OccurrencesOutside(phases[0].steps, base, step);
    TargetsPhase(phases[0].steps, phases[0].group, step);
    EachCopiedNone(phases[0].group);
    BandedTail(phases, base);
    TargetsFlatten(phases[1..], base + 1, step);
    BarrierGroupTail(phases, base, step);
  }

  /** A step reaches exactly the group of the one phase whose barrier it has, if that phase lists it. */
  lemma {:induction false} TargetsFlatten(phases: seq<Phase>, base: nat, step: Step)
    requires Banded(phases, base)
    ensures Targets(Flatten(phases), step) == BarrierGroup(phases, base, step)
    decreases |phases|, 1
  {
    if phases != [] {
      if Barrier(step) == base {
        TargetsFlattenHead(phases, base, step);
      } else {
        TargetsFlattenLater(phases, base, step);
      }
    }
  }

  lemma ScheduleBanded(all: seq<string>, master: string, data: seq<string>, sql: seq<string>,
                       configCommand: string, userCommand: string)
    ensures Banded(Schedule(all, master, data, sql, configCommand, userCommand), 0)
  {
  }

  /**
    The phases of `run` are submitted in order: every dispatch of a phase is
    submitted before any dispatch of the next (in particular the start steps
    are submitted for the master, then the data nodes, then the SQL nodes,
    and the add-user commands last).
  */
  lemma RunTraceOrdered(all: seq<string>, master: string, data: seq<string>, sql: seq<string>,
                        configCommand: string, userCommand: string)
    ensures Ordered(RunTrace(all, master, data, sql, configCommand, userCommand))
  {
    ScheduleBanded(all, master, data, sql, configCommand, userCommand);
    FlattenOrdered(Schedule(all, master, data, sql, configCommand, userCommand), 0);
  }

  /**
    The nodes `run` sends `step` to: purge and package fetch go to all nodes,
    the libraries and the mysql user/group to the data and SQL nodes, the
    master's steps to the master, and so on; a command that `run` did not
    render goes nowhere.
  */
  function RoleGroup(step: Step, all: seq<string>, master: string, data: seq<string>, sql: seq<string>,
                     configCommand: string, userCommand: string): seq<string>
  {
    match step
    case PurgeMysql => all
    case InstallLibs => data + sql
    case CreateMysqlUserGroup => data + sql
    case FetchClusterPackage => all
    case CopyManagementScripts => [master]
    case CopyDataNodeScripts => data
    case CopySqlNodeScripts => sql
    case ConfigureManagementNode(c) => if c == configCommand then [master] else []
    case ConfigureDataNode => data
    case ConfigureSqlNode => sql
    case UpdateAppArmor => sql
    case InstallSqlDatabase => sql
    case StartManagementNode => [master]
    case StartDataNode => data
    case StartSqlNode => sql
    case AddRemoteUsers(c) => if c == userCommand then sql else []
  }

  /**
    Each step of `run` reaches its role group, every member once and in list
    order, and no other node; in particular the add-user command goes to
    every SQL node, not to one.
  */
  lemma RunTraceTargets(all: seq<string>, master: string, data: seq<string>, sql: seq<string>,
                        configCommand: string, userCommand: string, step: Step)
    ensures Targets(RunTrace(all, master, data, sql, configCommand, userCommand), step)
         == RoleGroup(step, all, master, data, sql, configCommand, userCommand)
  {
    ScheduleBanded(all, master, data, sql, configCommand, userCommand);
    TargetsFlatten(Schedule(all, master, data, sql, configCommand, userCommand), 0, step);
    ScheduleRoles(all, master, data, sql, configCommand, userCommand, step);
  }

  /** Read off the schedule: the phase at each step's barrier is sent to that step's role. */
  lemma ScheduleRoles(all: seq<string>, master: string, data: seq<string>, sql: seq<string>,
                      configCommand: string, userCommand: string, step: Step)
    ensures BarrierGroup(Schedule(all, master, data, sql, configCommand, userCommand), 0, step)
         == RoleGroup(step, all, master, data, sql, configCommand, userCommand)
  {
    var phases := Schedule(all, master, data, sql, configCommand, userCommand);
    var k := Barrier(step);
    var steps, group := phases[k].steps, phases[k].group;
    match step
    case ConfigureManagementNode(c) =>
      assert steps == [ConfigureManagementNode(configCommand)];
      assert Occurrences(steps, step) == if c == configCommand then 1 else 0 by {
        assert steps[1..] == [];
      }
      EachCopiedOnce(group);
      EachCopiedNone(group);
    case AddRemoteUsers(c) =>
      assert steps == [AddRemoteUsers(userCommand)];
      assert Occurrences(steps, step) == if c == userCommand then 1 else 0 by {
        assert steps[1..] == [];
      }
      EachCopiedOnce(group);
      EachCopiedNone(group);
    case _ =>
      FixedStepRoles(all, master, data, sql, configCommand, userCommand, step);
  }

  /** A step without a rendered command is listed once in its phase, which goes to its role. */
  lemma FixedStepRoles(all: seq<string>, master: string, data: seq<string>, sql: seq<string>,
                       configCommand: string, userCommand: string, step: Step)
    requires !step.ConfigureManagementNode? && !step.AddRemoteUsers?
    ensures BarrierGroup(Schedule(all, master, data, sql, configCommand, userCommand), 0, step)
         == RoleGroup(step, all, master, data, sql, configCommand, userCommand)
  {
    var phases := Schedule(all, master, data, sql, configCommand, userCommand);
    var steps, group := phases[Barrier(step)].steps, phases[Barrier(step)].group;
    assert step in steps;
    assert forall i, j :: 0 <= i < j < |steps| ==> steps[i] != steps[j];
    OccurrencesOnce(steps, step);
    EachCopiedOnce(group);
    assert group == RoleGroup(step, all, master, data, sql, configCommand, userCommand);
  }


  lemma {:induction false} OccurrencesAbsent(steps: seq<Step>, step: Step)
    requires step !in steps
    ensures Occurrences(steps, step) == 0
  {
    if steps != [] {
      assert steps[0] != step;
      OccurrencesAbsent(steps[1..], step);
    }
  }

  /** A step listed once in a list without repetitions occurs once. */
  lemma {:induction false} OccurrencesOnce(steps: seq<Step>, step: Step)
    requires step in steps
    requires forall i, j :: 0 <= i < j < |steps| ==> steps[i] != steps[j]
    ensures Occurrences(steps, step) == 1
  {
    if steps[0] == step {
      assert step !in steps[1..] by {
        forall i | 0 <= i < |steps[1..]| ensures steps[1..][i] != step {
          assert steps[1..][i] == steps[i + 1];
        }
      }
      OccurrencesAbsent(steps[1..], step);
    } else {
      assert step in steps[1..] by {
        var i :| 0 <= i < |steps| && steps[i] == step;
        assert steps[1..][i - 1] == step;
      }
      forall i, j | 0 <= i < j < |steps[1..]| ensures steps[1..][i] != steps[1..][j] {
        assert steps[1..][i] == steps[i + 1] && steps[1..][j] == steps[j + 1];
      }
      OccurrencesOnce(steps[1..], step);
    }
  }
}
