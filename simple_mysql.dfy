/**
  The plugin object itself: the configured counts and credentials, the node
  lists it derives, and the record of every remote step it has sent.
  `Run` checks and corrects the topology, partitions the pool and then issues
  the thirteen phases in order; when the size check fails it stops before
  sending anything.
*/
module SimpleMysql {
  import opened Wrappers
  import opened Topology
  import opened Phases
  import ClusterConfig
  import Credentials

  /** The `RuntimeError` of the size check; its message is fixed text and names no sizes. */
  datatype SetupError = NodeCountMismatch

  /** The phase loop's step: the next node of the group receives all the steps. */
  lemma PhaseTraceNext(steps: seq<Step>, group: seq<Node>, i: nat)
    requires i < |group|
    ensures PhaseTrace(steps, Aliases(group[..i + 1]))
         == PhaseTrace(steps, Aliases(group[..i])) + NodeDispatches(steps, group[i].alias)
  {
    AliasesPrefix(group, i);
    PhaseTraceSnoc(steps, Aliases(group[..i]), group[i].alias);
  }

  class SimpleMysqlCluster {
    var numReplicas: int
    var numSqlNodes: int
    var numDataNodes: int
    var sqlUser: string
    var sqlPassword: string
    var dataNodesList: seq<Node>
    var sqlNodesList: seq<Node>
    var dataAliasList: seq<string>
    var sqlAliasList: seq<string>
    /** Every remote step sent so far, in the order it was sent. */
    var issued: seq<Dispatch>

    constructor (numReplicas: int, numSqlNodes: int, numDataNodes: int, sqlUser: string, sqlPassword: string)
      ensures this.numReplicas == numReplicas && this.numSqlNodes == numSqlNodes
      ensures this.numDataNodes == numDataNodes
      ensures this.sqlUser == sqlUser && this.sqlPassword == sqlPassword
      ensures dataNodesList == [] && sqlNodesList == [] && dataAliasList == [] && sqlAliasList == []
      ensures issued == []
    {
      this.numReplicas := numReplicas;
      this.numSqlNodes := numSqlNodes;
      this.numDataNodes := numDataNodes;
      this.sqlUser := sqlUser;
      this.sqlPassword := sqlPassword;
      dataNodesList, sqlNodesList := [], [];
      dataAliasList, sqlAliasList := [], [];
      issued := [];
    }

    /** Sends one step to one node (the plugin's `node.ssh.execute`, whose result it ignores). */
    method Execute(step: Step, node: Node)
      modifies this`issued
      ensures issued == old(issued) + [Dispatch(step, node.alias)]
    {
      issued := issued + [Dispatch(step, node.alias)];
    }

    /** Sends `steps`, in order, to one node. */
    method ExecuteAll(steps: seq<Step>, node: Node)
      modifies this`issued
      ensures issued == old(issued) + NodeDispatches(steps, node.alias)
    {
      for j := 0 to |steps|
        invariant issued == old(issued) + NodeDispatches(steps[..j], node.alias)
      {
        Execute(steps[j], node);
        assert steps[..j + 1] == steps[..j] + [steps[j]];
        NodeDispatchesSnoc(steps[..j], steps[j], node.alias);
      }
      assert steps[..|steps|] == steps;
    }

    /** One phase: every node of `group` in order receives all of `steps`, in order. */
    method RunPhase(steps: seq<Step>, group: seq<Node>)
      modifies this`issued
      ensures issued == old(issued) + PhaseTrace(steps, Aliases(group))
    {
      for i := 0 to |group|
        invariant issued == old(issued) + PhaseTrace(steps, Aliases(group[..i]))
      {
        ExecuteAll(steps, group[i]);
        PhaseTraceNext(steps, group, i);
      }
      assert group[..|group|] == group;
    }

    /**
      The size check, then the replica corrections. On a size mismatch
      nothing changes; otherwise the replica count is corrected in place.
    */
    method InitialChecks(nodes: seq<Node>) returns (outcome: Outcome<SetupError>)
      modifies this`numReplicas
      ensures outcome.Fail? <==> !SizeMatches(|nodes|, numDataNodes, numSqlNodes)
      ensures outcome.Fail? ==> numReplicas == old(numReplicas)
      ensures outcome.Pass? ==> numReplicas == CorrectedReplicas(old(numReplicas), numDataNodes)
    {
      var starClusterNodes := |nodes|;
      var mysqlClusterNodes := 1 + numSqlNodes + numDataNodes;
      if starClusterNodes != mysqlClusterNodes {
        return Fail(NodeCountMismatch);
      }
      if !(numReplicas == 1 || numReplicas == 2) {
        numReplicas := 2;
      }
      if numReplicas == 2 {
        if numDataNodes % 2 != 0 {
          numReplicas := 1;
        }
      }
      outcome := Pass;
    }

    /** Splits the pool into data and SQL nodes and records their aliases. */
    method DefineNodeLists(nodes: seq<Node>, master: Node)
      modifies this`dataNodesList, this`sqlNodesList, this`dataAliasList, this`sqlAliasList
      ensures dataNodesList == DataNodes(nodes, numDataNodes)
      ensures sqlNodesList == SqlNodes(nodes, numDataNodes)
      ensures dataAliasList == Aliases(dataNodesList) && sqlAliasList == Aliases(sqlNodesList)
    {
      dataNodesList := PySlice(nodes, 1, numDataNodes + 1);
      sqlNodesList := PySlice(nodes, numDataNodes + 1, |nodes|);
      dataAliasList := Aliases(dataNodesList);
      sqlAliasList := Aliases(sqlNodesList);
    }

    /**
      Renders `config.ini` from the replica count and the alias lists, one
      section appended per alias, and sends the command that writes it to the
      management node.
    */
    method ManagementNodeConfigSetup(node: Node)
      modifies this`issued
      ensures issued == old(issued) + [Dispatch(ConfigureManagementNode(
                ClusterConfig.ConfigCommand(numReplicas, dataAliasList, sqlAliasList)), node.alias)]
    {
      var ndbdFull := "";
      for i := 0 to |dataAliasList|
        invariant ndbdFull == ClusterConfig.Sections(ClusterConfig.DataNodeSection, dataAliasList[..i])
        invariant issued == old(issued)
      {
        ndbdFull := ndbdFull + "\n" + ClusterConfig.Section(ClusterConfig.DataNodeSection, dataAliasList[i]);
        ClusterConfig.SectionsSnoc(ClusterConfig.DataNodeSection, dataAliasList[..i], dataAliasList[i]);
        assert dataAliasList[..i + 1] == dataAliasList[..i] + [dataAliasList[i]];
      }
      var mysqldFull := "";
      for i := 0 to |sqlAliasList|
        invariant mysqldFull == ClusterConfig.Sections(ClusterConfig.SqlNodeSection, sqlAliasList[..i])
        invariant issued == old(issued)
      {
        mysqldFull := mysqldFull + "\n" + ClusterConfig.Section(ClusterConfig.SqlNodeSection, sqlAliasList[i]);
        ClusterConfig.SectionsSnoc(ClusterConfig.SqlNodeSection, sqlAliasList[..i], sqlAliasList[i]);
        assert sqlAliasList[..i + 1] == sqlAliasList[..i] + [sqlAliasList[i]];
      }
      assert dataAliasList[..|dataAliasList|] == dataAliasList;
      assert sqlAliasList[..|sqlAliasList|] == sqlAliasList;
      var commands := ClusterConfig.ConfigTemplate(numReplicas, ndbdFull, mysqldFull);
      assert commands == ClusterConfig.ConfigCommand(numReplicas, dataAliasList, sqlAliasList);
      Execute(ConfigureManagementNode(commands), node);
    }

    /** Sends the add-user command, with this plugin's user and password, to one SQL node. */
    method AddRemoteUsersToSqlNodes(node: Node)
      modifies this`issued
      ensures issued == old(issued) + [Dispatch(AddRemoteUsers(Credentials.AddUserCommand(sqlUser, sqlPassword)), node.alias)]
    {
      Execute(AddRemoteUsers(Credentials.AddUserCommand(sqlUser, sqlPassword)), node);
    }

    /** True once `DefineNodeLists` has run: the alias lists follow the node lists. */
    predicate AliasesRecorded()
      reads this
    {
      dataAliasList == Aliases(dataNodesList) && sqlAliasList == Aliases(sqlNodesList)
    }

    /**
      The install group of `run`: purge everywhere, libraries and the mysql
      user/group on data and SQL nodes, the package everywhere, then the
      scripts of the management, data and SQL roles.
    */
    method InstallPhases(nodes: seq<Node>, master: Node)
      requires AliasesRecorded()
      modifies this`issued
      ensures issued == old(issued)
                + Flatten(InstallSchedule(Aliases(nodes), master.alias, dataAliasList, sqlAliasList))
    {
      ghost var s0 := issued;
      RunPhase([PurgeMysql], nodes);
      ghost var s1 := issued;
      AliasesAppend(dataNodesList, sqlNodesList);
      RunPhase([InstallLibs, CreateMysqlUserGroup], dataNodesList + sqlNodesList);
      ghost var s2 := issued;
      RunPhase([FetchClusterPackage], nodes);
      ghost var s3 := issued;
      Execute(CopyManagementScripts, master);
      assert PhaseTrace([CopyManagementScripts], [master.alias]) == [Dispatch(CopyManagementScripts, master.alias)];
      ghost var s4 := issued;
      RunPhase([CopyDataNodeScripts], dataNodesList);
      ghost var s5 := issued;
      RunPhase([CopySqlNodeScripts], sqlNodesList);
      InstallGroup(s0, s1, s2, s3, s4, s5, issued, Aliases(nodes), master.alias, dataAliasList, sqlAliasList);
    }

    /**
      The configure group of `run`: `config.ini` on the management node, then
      the data nodes, then the SQL nodes (configuration, AppArmor, database).
    */
    method ConfigurePhases(master: Node)
      requires AliasesRecorded()
      modifies this`issued
      ensures issued == old(issued) + Flatten(ConfigureSchedule(master.alias, dataAliasList, sqlAliasList,
                ClusterConfig.ConfigCommand(numReplicas, dataAliasList, sqlAliasList)))
    {
      ghost var s0 := issued;
      ManagementNodeConfigSetup(master);
      ghost var command := ClusterConfig.ConfigCommand(numReplicas, dataAliasList, sqlAliasList);
      assert PhaseTrace([ConfigureManagementNode(command)], [master.alias])
          == [Dispatch(ConfigureManagementNode(command), master.alias)];
      ghost var s1 := issued;
      RunPhase([ConfigureDataNode], dataNodesList);
      ghost var s2 := issued;
      RunPhase([ConfigureSqlNode, UpdateAppArmor, InstallSqlDatabase], sqlNodesList);
      ConfigureGroup(s0, s1, s2, issued, master.alias, dataAliasList, sqlAliasList, command);
    }

    /**
      The start group of `run`: the management node, then the data nodes,
      then the SQL nodes, and finally the user creation on every SQL node.
    */
    method StartPhases(master: Node)
      requires AliasesRecorded()
      modifies this`issued
      ensures issued == old(issued) + Flatten(StartSchedule(master.alias, dataAliasList, sqlAliasList,
                Credentials.AddUserCommand(sqlUser, sqlPassword)))
    {
      ghost var command := Credentials.AddUserCommand(sqlUser, sqlPassword);
      ghost var s0 := issued;
      RunPhase([StartManagementNode], [master]);
      assert Aliases([master]) == [master.alias];
      ghost var s1 := issued;
      RunPhase([StartDataNode], dataNodesList);
      ghost var s2 := issued;
      RunPhase([StartSqlNode], sqlNodesList);
      ghost var s3 := issued;
      for i := 0 to |sqlNodesList|
        invariant issued == s3 + PhaseTrace([AddRemoteUsers(command)], Aliases(sqlNodesList[..i]))
      {
        AddRemoteUsersToSqlNodes(sqlNodesList[i]);
        PhaseTraceNext([AddRemoteUsers(command)], sqlNodesList, i);
      }
      assert sqlNodesList[..|sqlNodesList|] == sqlNodesList;
      StartGroup(s0, s1, s2, s3, issued, master.alias, dataAliasList, sqlAliasList, command);
    }

    /** Everything `run` sends once the node lists exist: the install, configure and start groups. */
    method RunPhases(nodes: seq<Node>, master: Node)
      requires AliasesRecorded()
      modifies this`issued
      ensures issued == old(issued) + RunTrace(Aliases(nodes), master.alias, dataAliasList, sqlAliasList,
                ClusterConfig.ConfigCommand(numReplicas, dataAliasList, sqlAliasList),
                Credentials.AddUserCommand(sqlUser, sqlPassword))
    {
      ghost var s0 := issued;
      InstallPhases(nodes, master);
      ghost var s1 := issued;
      ConfigurePhases(master);
      ghost var s2 := issued;
      StartPhases(master);
      GroupsMakeRunTrace(s0, s1, s2, issued, Aliases(nodes), master.alias, dataAliasList, sqlAliasList,
        ClusterConfig.ConfigCommand(numReplicas, dataAliasList, sqlAliasList),
        Credentials.AddUserCommand(sqlUser, sqlPassword));
    }

    /**
      The whole plugin run. A size mismatch is returned before anything is
      sent and changes nothing; otherwise the replica count is corrected, the
      node lists are derived, and the phases of `RunTrace` are sent in order.
    */
    method Run(nodes: seq<Node>, master: Node) returns (outcome: Outcome<SetupError>)
      modifies this`numReplicas, this`dataNodesList, this`sqlNodesList, this`dataAliasList, this`sqlAliasList
      modifies this`issued
      ensures outcome.Fail? <==> !SizeMatches(|nodes|, numDataNodes, numSqlNodes)
      ensures outcome.Fail? ==> numReplicas == old(numReplicas) && issued == old(issued)
      ensures outcome.Fail? ==> dataNodesList == old(dataNodesList) && sqlNodesList == old(sqlNodesList)
      ensures outcome.Fail? ==> dataAliasList == old(dataAliasList) && sqlAliasList == old(sqlAliasList)
      ensures outcome.Pass? ==> numReplicas == CorrectedReplicas(old(numReplicas), numDataNodes)
      ensures outcome.Pass? ==> dataNodesList == DataNodes(nodes, numDataNodes)
      ensures outcome.Pass? ==> sqlNodesList == SqlNodes(nodes, numDataNodes)
      ensures outcome.Pass? ==> AliasesRecorded()
      ensures outcome.Pass? && numDataNodes >= 0 && numSqlNodes >= 0 ==>
                [nodes[0]] + dataNodesList + sqlNodesList == nodes
                && |dataNodesList| == numDataNodes && |sqlNodesList| == numSqlNodes
      ensures outcome.Pass? ==> issued == old(issued) + RunTrace(Aliases(nodes), master.alias,
                dataAliasList, sqlAliasList,
                ClusterConfig.ConfigCommand(numReplicas, dataAliasList, sqlAliasList),
                Credentials.AddUserCommand(sqlUser, sqlPassword))
    {
      outcome := InitialChecks(nodes);
      if outcome.Fail? {
        return;
      }
      DefineNodeLists(nodes, master);
      if numDataNodes >= 0 && numSqlNodes >= 0 {
        PartitionExact(nodes, numDataNodes, numSqlNodes);
      }
      RunPhases(nodes, master);
    }
  }
}
