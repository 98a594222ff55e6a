# SimpleMysqlCluster plugin — a Dafny model

This project models the orchestration core of StarCluster's `simplemysqlcluster` plugin. The plugin turns a pool of provisioned nodes into a MySQL Cluster: one management node (the master), a group of data nodes and a group of SQL nodes. The model covers:

- **Topology check and correction** (`_InitialChecks`). The pool must hold exactly `1 + sql + data` nodes, or the run stops with a `RuntimeError`, modelled as `Fail(NodeCountMismatch)` (the source's message is fixed text and names no sizes). The replica count is then repaired in place: any value other than 1 or 2 becomes 2, and 2 with an odd number of data nodes becomes 1. This lives in `Topology` and `SimpleMysqlCluster.InitialChecks`.
- **Role partition** (`_DefineNodeLists`). The pool is sliced with Python's slice semantics into the data nodes `nodes[1:d+1]` and the SQL nodes `nodes[d+1:]`, and each list gets its alias list.
- **Management configuration** (`_ManagementNodeConfigSetup`). Two loops add one `[ndbd]` section per data alias and one `[mysqld]` section per SQL alias. The `config.ini` text, with its exact whitespace, is filled in and sent to the master. `ClusterConfig` parses the text back. The round trip shows that the text records exactly the corrected replica count and both alias lists, in order.
- **Credentials** (`_AddRemoteUsersToSQLNodes`). The CREATE USER / GRANT command names the configured user in both lines and the password in CREATE USER. `Credentials` parses it back. The text is not escaped: with plain text around it (no backslash, double quote, `$` or backquote), a single quote in the password that is not doubled ends the password literal MySQL receives, and quotes in the user name let two different credential pairs render the same command.
- **Phase sequencing** (`run`). Each remote action is an opaque `Step`. The plugin object (`SimpleMysqlCluster`, a class whose fields are updated in place) appends one `Dispatch(step, alias)` to its `issued` field per remote call it submits. `Run` is proved to submit exactly `RunTrace`. `RunTrace` is a schedule of thirteen phases; a phase ends at each `pool.wait` and at each of the two direct calls to the master (lines 75 and 85), which return before the next line runs, and lemmas show two things about it:
  - dispatches are submitted in phase order;
  - every step reaches exactly its role group, each member once, in list order.

Modules: `Wrappers` (Option, Outcome), `Text`, `Topology`, `ClusterConfig`, `Credentials`, `Phases`, `SimpleMysql`.

## Model

All source paths are in `StarCluster/plugins/simplemysqlcluster/`.

| member | source | states |
|---|---|---|
| Topology.CorrectedReplicas | StarCluster/plugins/simplemysqlcluster/simplemysql.py:126-142 | The corrected count is 1 or 2, and it is 2 only when the data-node count is even. An input that is already consistent (1, or 2 with an even count) is kept. The result is 1 only if the input was 1 or the data-node count is odd. |
| Topology.CorrectedReplicasIdempotent | StarCluster/plugins/simplemysqlcluster/simplemysql.py:126-142 | Correcting a corrected count changes nothing, so running the checks a second time leaves the replica count alone. |
| Topology.PySlice | StarCluster/plugins/simplemysqlcluster/simplemysql.py:150-151 | Python's `s[lo:hi]`: never longer than `s`; with bounds in range it is `s[lo..hi]`; a negative start from `-|s|` counts from the end (`s[|s|+lo..hi]`); an end past the length stops at the end (`s[lo..]`); and an end at or before a non-negative start gives the empty list. |
| Topology.PartitionExact | StarCluster/plugins/simplemysqlcluster/simplemysql.py:150-151 | Once the size test passes with non-negative counts: the first node, then the data nodes, then the SQL nodes make up the whole pool in order. The data list has `dataCount` nodes and the SQL list `sqlCount`. |
| Topology.NegativeCountBreaksPartition | StarCluster/plugins/simplemysqlcluster/simplemysql.py:119-124 | The size test alone does not make the split exact. Three nodes with -1 data and 3 SQL nodes pass the test, and every node, the master included, becomes a SQL node. |
| Topology.Aliases | StarCluster/plugins/simplemysqlcluster/simplemysql.py:153-154 | The alias list has the node list's length, and element `i` is the alias of node `i`. |
| Text.IntToDecimalRoundTrip | StarCluster/plugins/simplemysqlcluster/simplemysql.py:256-261 | The decimal text written after `NoOfReplicas=` parses back to the same integer, negative values included. |
| ClusterConfig.SectionsSnoc | StarCluster/plugins/simplemysqlcluster/simplemysql.py:273-274 | One more alias appends a newline and that alias's section: this is the step of the loops that build the section text. |
| ClusterConfig.ParseJoinedRoundTrip | StarCluster/plugins/simplemysqlcluster/simplemysql.py:267-281 | A run of per-alias sections parses back to exactly its alias list, in order, leaving the text after it untouched. |
| ClusterConfig.ParseHostsRoundTrip | StarCluster/plugins/simplemysqlcluster/simplemysql.py:262-302 | The `[ndb_mgmd]` block followed by the `[ndbd]` and then the `[mysqld]` sections parses back to the two alias lists. |
| ClusterConfig.ConfigIniRoundTrip | StarCluster/plugins/simplemysqlcluster/simplemysql.py:256-302 | `config.ini` contains, in order: the `[ndbd default]` block with the replica count, the `[ndb_mgmd]` block, one `[ndbd]` section per data alias and one `[mysqld]` section per SQL alias. Parsing it gives back exactly the count and the lists. |
| ClusterConfig.ConfigCommandRoundTrip | StarCluster/plugins/simplemysqlcluster/simplemysql.py:282-302 | The shell command sent to the master (mkdir, then a heredoc into `config.ini`) carries that same layout. |
| Credentials.AddUserCommandRoundTrip | StarCluster/plugins/simplemysqlcluster/simplemysql.py:458-461 | The add-user command names the user in CREATE USER and in GRANT, and the password in CREATE USER. Parsing it gives back exactly that user and password. |
| Credentials.PasswordLiteralEndsAtQuote | StarCluster/plugins/simplemysqlcluster/simplemysql.py:458-461 | The password is embedded unescaped: for a password `p1 + "'" + p2`, with the user and `p1` free of quotes, backslashes, double quotes, `$` and backquotes, and `p2` non-empty and not starting with a second quote, the password literal of the CREATE USER line ends at that quote, so MySQL receives the password literal `p1`. |
| Credentials.QuotedUserCollides | StarCluster/plugins/simplemysqlcluster/simplemysql.py:458-461 | Quotes in the user name are not escaped either: the pairs ("", GrantPrefix + IdentifiedBy + GrantPrefix + IdentifiedBy) and (IdentifiedBy + GrantPrefix, "") differ but render the same command, so the text does not determine the credentials. |
| Credentials.AddUserCommand | StarCluster/plugins/simplemysqlcluster/simplemysql.py:458-461 | The template with the user in CREATE USER and GRANT and the password in CREATE USER; `AddUserCommandRoundTrip` reads both back, and `PasswordLiteralEndsAtQuote` shows the unescaped embedding. |
| Credentials.CreateUserLiterals | StarCluster/plugins/simplemysqlcluster/simplemysql.py:458-461 | The user and password literals of the CREATE USER line, each read up to the next single quote (MySQL's reading when no quote is doubled or backslash-escaped); neither contains a quote. |
| ClusterConfig.Sections | StarCluster/plugins/simplemysqlcluster/simplemysql.py:267-281 | The text the section loops accumulate, one newline and one section per alias; `SectionsSnoc` is the loop step and `ParseJoinedRoundTrip` reads the aliases back in order. |
| ClusterConfig.NdbdDefault | StarCluster/plugins/simplemysqlcluster/simplemysql.py:256-261 | The `[ndbd default]` block with `NoOfReplicas=` and the decimal count; `ParseDefaultsRoundTrip` and `ConfigIniRoundTrip` read the count back. |
| ClusterConfig.ConfigTemplate | StarCluster/plugins/simplemysqlcluster/simplemysql.py:256-302 | The command template, with the `[ndbd default]` block, the fixed `[ndb_mgmd]` block (`NdbMgmd`) and the two accumulated section runs in that order; `ManagementNodeConfigSetup` proves the loops fill it to `ConfigCommand`. |
| ClusterConfig.ConfigCommand | StarCluster/plugins/simplemysqlcluster/simplemysql.py:256-302 | The command for a replica count and two alias lists; `ConfigCommandRoundTrip` parses it back to exactly that count and those lists. |
| Topology.DataNodes | StarCluster/plugins/simplemysqlcluster/simplemysql.py:150-151 | `nodes[1:d+1]`; `PartitionExact` gives it `d` nodes directly after the first, and `NegativeCountBreaksPartition` shows it empty for `d = -1`. |
| Topology.SqlNodes | StarCluster/plugins/simplemysqlcluster/simplemysql.py:150-151 | `nodes[d+1:]`; `PartitionExact` gives it the remaining `sql` nodes, and `NegativeCountBreaksPartition` shows it takes the whole pool for `d = -1`. |
| Text.IntToDecimal | StarCluster/plugins/simplemysqlcluster/simplemysql.py:258 | The `%s` rendering of the replica count: non-empty and without newlines; `IntToDecimalRoundTrip` parses it back. |
| Phases.Barrier | StarCluster/plugins/simplemysqlcluster/simplemysql.py:63-114 | The phase of each step: the number of phase ends before its submission, where a phase ends at each `pool.wait` and at each of the two direct calls at lines 75 and 85; `ScheduleBanded` shows each phase of `Schedule` holds only steps of its own barrier. |
| Phases.Schedule | StarCluster/plugins/simplemysqlcluster/simplemysql.py:63-114 | The thirteen phases of `run` with their step lists and role groups; `RunTraceGroups` splits it into the install, configure and start groups. |
| Phases.RunTrace | StarCluster/plugins/simplemysqlcluster/simplemysql.py:63-114 | Every dispatch `run` submits after its checks, in order; `RunTraceOrdered` and `RunTraceTargets` are proved of it, and `Run` is proved to submit exactly it. |
| Phases.RoleGroup | StarCluster/plugins/simplemysqlcluster/simplemysql.py:63-114 | The nodes each step is aimed at; `RunTraceTargets` proves each step reaches exactly this group, once per member, in list order. |
| Phases.RunTraceGroups | StarCluster/plugins/simplemysqlcluster/simplemysql.py:63-114 | The run's trace is the install group (six phases), then the configure group (three), then the start group (four). |
| Phases.RunTraceOrdered | StarCluster/plugins/simplemysqlcluster/simplemysql.py:63-114 | No dispatch of a later phase is submitted before a dispatch of an earlier one: every job of a phase is submitted before any job of the next. |
| Phases.RunTraceTargets | StarCluster/plugins/simplemysqlcluster/simplemysql.py:63-114 | Each step reaches exactly its role group, each member once, in list order, and no other node. Purge and package go to all nodes; libraries and the user/group to data and SQL nodes; the master's steps to the master alone. The add-user command goes to every SQL node. |
| SimpleMysql.SimpleMysqlCluster.constructor | StarCluster/plugins/simplemysqlcluster/simplemysql.py:47-53 | Stores the counts and credentials; the node lists, alias lists and the dispatch record start empty. |
| SimpleMysql.SimpleMysqlCluster.Execute | StarCluster/plugins/simplemysqlcluster/simplemysql.py:303-304 | One remote call appends exactly one dispatch of that step to that node. |
| SimpleMysql.SimpleMysqlCluster.ExecuteAll | StarCluster/plugins/simplemysqlcluster/simplemysql.py:67-69 | A node receives the phase's steps in order, and nothing else is recorded. |
| SimpleMysql.SimpleMysqlCluster.RunPhase | StarCluster/plugins/simplemysqlcluster/simplemysql.py:63-65 | One phase's loop appends, for each node of the group in order, that node's steps. |
| SimpleMysql.SimpleMysqlCluster.InitialChecks | StarCluster/plugins/simplemysqlcluster/simplemysql.py:116-144 | Fails with `NodeCountMismatch` if and only if the pool size differs from `1 + sql + data`, leaving the replica count unchanged. Otherwise the replica count becomes `CorrectedReplicas` of its old value. |
| SimpleMysql.SimpleMysqlCluster.DefineNodeLists | StarCluster/plugins/simplemysqlcluster/simplemysql.py:147-154 | The data list is `nodes[1:d+1]` and the SQL list is `nodes[d+1:]`. The alias lists are their aliases. |
| SimpleMysql.SimpleMysqlCluster.ManagementNodeConfigSetup | StarCluster/plugins/simplemysqlcluster/simplemysql.py:252-304 | The loop-built text equals `ConfigCommand` of the replica count and both alias lists, and it is sent once to the given node. |
| SimpleMysql.SimpleMysqlCluster.AddRemoteUsersToSqlNodes | StarCluster/plugins/simplemysqlcluster/simplemysql.py:454-463 | Sends the add-user command, carrying the plugin's user and password, to the given node. |
| SimpleMysql.SimpleMysqlCluster.InstallPhases | StarCluster/plugins/simplemysqlcluster/simplemysql.py:63-83 | Issues exactly the install group. |
| SimpleMysql.SimpleMysqlCluster.ConfigurePhases | StarCluster/plugins/simplemysqlcluster/simplemysql.py:84-94 | Issues exactly the configure group: the master receives the command built from the corrected count and both alias lists. |
| SimpleMysql.SimpleMysqlCluster.StartPhases | StarCluster/plugins/simplemysqlcluster/simplemysql.py:95-114 | Issues exactly the start group, ending with the add-user command on every SQL node. |
| SimpleMysql.SimpleMysqlCluster.RunPhases | StarCluster/plugins/simplemysqlcluster/simplemysql.py:63-114 | Everything after the node lists exist appends exactly `RunTrace`. |
| SimpleMysql.SimpleMysqlCluster.Run | StarCluster/plugins/simplemysqlcluster/simplemysql.py:56-114 | On a size mismatch, fails and changes nothing: no field and no dispatch. Otherwise it does four things. It corrects the replica count. It sets the node and alias lists to the partition, which is exact for non-negative counts. It submits exactly `RunTrace` for the pool's aliases, the master, the two alias lists and the two rendered commands. |

## Left out

- Remote execution: every fixed shell payload (purge, libraries, package fetch, script copies, data and SQL node configuration, AppArmor, database install, start commands) is an opaque `Step`. `node.ssh.execute` becomes the appending of a dispatch record. Remote failures are not modelled: every step counts as sent, and what `execute` or `pool.wait` do with a failed command is not captured.
- Concurrency: `pool.simple_job` and `pool.wait` become a sequential loop per phase, in list order. The order of dispatches inside a phase is therefore the submission order, not an execution order. The `wait(n)` counting belongs to a StarCluster class that is not part of this model, so a dispatch records a submission, not a completion, and the model proves nothing about when a job finishes.
- Wait counts: line 70 waits for `len(data + sql)` jobs after submitting two per node, and line 95 waits for `len(sql)` jobs after submitting three per SQL node. The model's phases end where those waits are, but it does not capture that each wait covers fewer jobs than were submitted.
- Order within the SQL configuration phase: lines 92-94 submit each SQL node's configuration, AppArmor update and database install as three separate concurrent jobs. The model records them in submission order, but the source does not make the database install (which reads `/etc/my.cnf`) wait for the configuration job that writes that file, nor for the AppArmor update that, by the source's own comment at lines 399-403, the install needs first.
- `log.info` calls, the `DefaultClusterSetup` base class, and the `int(...)` conversions in `__init__` are left out. The counts are taken as integers.
- The `user`, `user_shell` and `volumes` parameters of `run` are left out, because the plugin does not use them. `master` is passed to `Run` on its own, as in the code. The model does not require it to be `nodes[0]`.
- PartitionExact: exactness is stated only for non-negative counts. The code never checks the sign, and `NegativeCountBreaksPartition` shows what happens without that condition.
- ConfigIniRoundTrip: stated for aliases without newlines. An alias that contains a newline makes the text ambiguous. The same holds for ParseHostsRoundTrip, ParseJoinedRoundTrip and ConfigCommandRoundTrip.
- AddUserCommandRoundTrip: stated for a user and password without single quotes, because the code does not escape them. `PasswordLiteralEndsAtQuote` shows which password literal MySQL receives when a single, undoubled quote appears in a plain password, and `QuotedUserCollides` shows two credential pairs with the same text. How MySQL reads doubled or backslash-escaped quotes, and how the shell treats `"`, `$`, backquotes and backslashes inside the double-quoted `mysql -e` argument, is not modelled.
