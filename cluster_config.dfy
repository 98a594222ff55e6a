/**
  The management node's `config.ini`, as the plugin renders it: an
  `[ndbd default]` block with the replica count, an `[ndb_mgmd]` block, one
  `[ndbd]` section per data node alias and one `[mysqld]` section per SQL node
  alias, in that order. `ParseConfigIni` reads the text back; the round trip
  shows that the text records exactly the replica count and the two alias
  lists, in order.
*/
module ClusterConfig {
  import opened Wrappers
  import opened Text

  /** The two kinds of per-node section. */
  datatype SectionKind = DataNodeSection | SqlNodeSection

  /** What a rendered `config.ini` records. */
  datatype ClusterLayout = ClusterLayout(replicas: int, dataHosts: seq<string>, sqlHosts: seq<string>)

  /** Text of a per-node section before its alias. */
  function SectionHead(kind: SectionKind): string {
    match kind
    case DataNodeSection => "\n[ndbd]\nhostname="
    case SqlNodeSection => "\n[mysqld]\nhostname="
  }

  /** Text of a per-node section after its alias; it starts a new line. */
  function SectionTail(kind: SectionKind): (s: string)
    ensures |s| > 0 && s[0] == '\n'
  {
    match kind
    case DataNodeSection => "\ndatadir=/usr/local/mysql/data\n" + Spaces(28)
    case SqlNodeSection => "\n" + Spaces(29)
  }

  /** One per-node section, filled in with `alias`. */
  function Section(kind: SectionKind, alias: string): string {
    SectionHead(kind) + alias + SectionTail(kind)
  }

  /** `head + alias + tail` for every alias, in order. */
  function Joined(head: string, tail: string, aliases: seq<string>): string {
    if aliases == [] then "" else head + aliases[0] + tail + Joined(head, tail, aliases[1..])
  }

  /** Appending one alias appends one more `head + alias + tail`. */
  lemma {:induction false} JoinedSnoc(head: string, tail: string, aliases: seq<string>, alias: string)
    ensures Joined(head, tail, aliases + [alias]) == Joined(head, tail, aliases) + head + alias + tail
  {
    if aliases != [] {
      assert (aliases + [alias])[1..] == aliases[1..] + [alias];
      JoinedSnoc(head, tail, aliases[1..], alias);
    } else {
      assert [alias][1..] == [];
    }
  }

  /** Every section as the plugin appends it: a newline, then the section. */
  function Sections(kind: SectionKind, aliases: seq<string>): string {
    Joined("\n" + SectionHead(kind), SectionTail(kind), aliases)
  }

  /** Appending one alias appends its section: the step of the plugin's accumulating loop. */
  lemma SectionsSnoc(kind: SectionKind, aliases: seq<string>, alias: string)
    ensures Sections(kind, aliases + [alias]) == Sections(kind, aliases) + "\n" + Section(kind, alias)
  {
    JoinedSnoc("\n" + SectionHead(kind), SectionTail(kind), aliases, alias);
  }

  const ConfigHeader: string :=
    "#####################################\n"
    + "#  Config File For Management Node  #\n"
    + "#####################################\n"
    + "#\n"
    + "#  Which node?  \n"
    + "#  Answer: Master.\n"
    + "#\n"
    + "#  Which location?\n"
    + "#  Answer: /var/lib/mysql-cluster/config.ini\n"

  const ReplicasKey: string := "\n[ndbd default]\nNoOfReplicas="

  const DefaultsTail: string := "\nDataMemory=80M\nIndexMemory=18M\n" + Spaces(22)

  /** The `[ndbd default]` block. */
  function NdbdDefault(replicas: int): string {
    ReplicasKey + IntToDecimal(replicas) + DefaultsTail
  }

  /** The `[ndb_mgmd]` block. */
  const NdbMgmd: string := "\n[ndb_mgmd]\nhostname=master\ndatadir=/var/lib/mysql-cluster\n" + Spaces(17)


  predicate NoNewlines(aliases: seq<string>) {
    forall i :: 0 <= i < |aliases| ==> '\n' !in aliases[i]
  }

  /** Reads consecutive `head + alias + tail` blocks off the front of `s`; returns the aliases and the rest. */
  function ParseJoined(head: string, tail: string, s: string): (r: (seq<string>, string))
    requires |head| > 0
    ensures |r.1| <= |s|
    decreases |s|
  {
    if head <= s then
      match SplitAt(s[|head|..], '\n')
      case None => ([], s)
      case Some(line) =>
        if tail <= line.1 then
          var more := ParseJoined(head, tail, line.1[|tail|..]);
          ([line.0] + more.0, more.1)
        else ([], s)
    else ([], s)
  }

  /** Blocks joined from aliases without newlines are read back as exactly those aliases. */
  lemma {:induction false} ParseJoinedRoundTrip(head: string, tail: string, aliases: seq<string>, rest: string)
    requires |head| > 0 && |tail| > 0 && tail[0] == '\n'
    requires NoNewlines(aliases)
    requires !(head <= rest)
    ensures ParseJoined(head, tail, Joined(head, tail, aliases) + rest) == (aliases, rest)
  {
    if aliases == [] {
      assert Joined(head, tail, aliases) + rest == rest;
    } else {
      var later := Joined(head, tail, aliases[1..]) + rest;
      var s := Joined(head, tail, aliases) + rest;
      assert s == head + (aliases[0] + (tail + later));
      assert s[|head|..] == aliases[0] + (tail + later);
      SplitAtConcat(aliases[0], tail + later, '\n');
      assert (tail + later)[|tail|..] == later;
      ParseJoinedRoundTrip(head, tail, aliases[1..], rest);
      assert [aliases[0]] + aliases[1..] == aliases;
    }
  }

  /** Reads consecutive sections of `kind` off the front of `s`; returns their aliases and the rest. */
  function ParseSections(kind: SectionKind, s: string): (seq<string>, string) {
    ParseJoined("\n" + SectionHead(kind), SectionTail(kind), s)
  }

  /** Reads the node sections that follow the `[ndbd default]` block. */
  function ParseHosts(s: string): Option<(seq<string>, seq<string>)> {
    var atManagement :- StripPrefix(s, "  \n");
    var afterManagement :- StripPrefix(atManagement, NdbMgmd);
    var atData :- StripPrefix(afterManagement, "\n");
    var data := ParseSections(DataNodeSection, atData);
    var atSql :- StripPrefix(data.1, "   \n");
    var sql := ParseSections(SqlNodeSection, atSql);
    if sql.1 == "\n" then Some((data.0, sql.0)) else None
  }

  /** Reads a `config.ini` back into the layout it records. */
  function ParseConfigIni(text: string): Option<ClusterLayout> {
    var afterHeader :- StripPrefix(text, ConfigHeader);
    var afterKey :- StripPrefix(afterHeader, ReplicasKey);
    var line :- SplitAt(afterKey, '\n');
    var replicas :- ParseInt(line.0);
    var afterDefaults :- StripPrefix(line.1, DefaultsTail);
    var hosts :- ParseHosts(afterDefaults);
    Some(ClusterLayout(replicas, hosts.0, hosts.1))
  }

  lemma StripPrefixConcat(p: string, rest: string)
    ensures StripPrefix(p + rest, p) == Some(rest)
  {
  }

  /** The text after the `[ndbd default]` block: the management block, then the two runs of sections. */
  function HostsText(dataAliases: seq<string>, sqlAliases: seq<string>): string {
    "  \n" + (NdbMgmd + ("\n" + (Sections(DataNodeSection, dataAliases) + ("   \n"
    + (Sections(SqlNodeSection, sqlAliases) + "\n")))))
  }

  /** The `config.ini` written on the management node. */
  function ConfigIni(replicas: int, dataAliases: seq<string>, sqlAliases: seq<string>): string {
    ConfigHeader + (NdbdDefault(replicas) + HostsText(dataAliases, sqlAliases))
  }

  const ConfigCommandPrefix: string :=
    "\nmkdir -p /var/lib/mysql-cluster/\ncat > /var/lib/mysql-cluster/config.ini << EOF\n"

  /**
    The command template of the management node filled in with the replica
    count and the two accumulated runs of sections.
  */
  function ConfigTemplate(replicas: int, ndbdSections: string, mysqldSections: string): string {
    ConfigCommandPrefix + ConfigHeader + NdbdDefault(replicas) + "  \n" + NdbMgmd + "\n"
    + ndbdSections + "   \n" + mysqldSections + "\n" + "EOF\n"
  }

  /** The shell command that creates the data directory and writes `config.ini`. */
  function ConfigCommand(replicas: int, dataAliases: seq<string>, sqlAliases: seq<string>): string {
    ConfigTemplate(replicas, Sections(DataNodeSection, dataAliases), Sections(SqlNodeSection, sqlAliases))
  }

  lemma ParseHostsRoundTrip(dataAliases: seq<string>, sqlAliases: seq<string>)
    requires NoNewlines(dataAliases) && NoNewlines(sqlAliases)
    ensures ParseHosts(HostsText(dataAliases, sqlAliases)) == Some((dataAliases, sqlAliases))
  {
    var sqlPart := Sections(SqlNodeSection, sqlAliases) + "\n";
    var atSql := "   \n" + sqlPart;
    var atData := Sections(DataNodeSection, dataAliases) + atSql;
    StripPrefixConcat("  \n", NdbMgmd + ("\n" + atData));
    StripPrefixConcat(NdbMgmd, "\n" + atData);
    StripPrefixConcat("\n", atData);
    var dataHead := "\n" + SectionHead(DataNodeSection);
    assert atSql[0] != dataHead[0];
    ParseJoinedRoundTrip(dataHead, SectionTail(DataNodeSection), dataAliases, atSql);
    StripPrefixConcat("   \n", sqlPart);
    var sqlHead := "\n" + SectionHead(SqlNodeSection);
    assert |sqlHead| > 1;
    ParseJoinedRoundTrip(sqlHead, SectionTail(SqlNodeSection), sqlAliases, "\n");
  }

  /** The `[ndbd default]` block gives back its replica count and the text after it. */
  lemma ParseDefaultsRoundTrip(replicas: int, hosts: string)
    ensures var afterKey := StripPrefix(NdbdDefault(replicas) + hosts, ReplicasKey);
      && afterKey.Some?
      && SplitAt(afterKey.value, '\n') == Some((IntToDecimal(replicas), DefaultsTail + hosts))
      && ParseInt(IntToDecimal(replicas)) == Some(replicas)
      && StripPrefix(DefaultsTail + hosts, DefaultsTail) == Some(hosts)
  {
    var dec := IntToDecimal(replicas);
    var afterDec := DefaultsTail + hosts;
    assert NdbdDefault(replicas) + hosts == ReplicasKey + (dec + afterDec);
    StripPrefixConcat(ReplicasKey, dec + afterDec);
    assert DefaultsTail[0] == '\n';
    SplitAtConcat(dec, afterDec, '\n');
    IntToDecimalRoundTrip(replicas);
    StripPrefixConcat(DefaultsTail, hosts);
  }

  /**
    The rendered `config.ini` records the replica count, one `[ndbd]` section
    per data alias and one `[mysqld]` section per SQL alias, each list in
    order, and nothing else that varies.
  */
  lemma ConfigIniRoundTrip(replicas: int, dataAliases: seq<string>, sqlAliases: seq<string>)
    requires NoNewlines(dataAliases) && NoNewlines(sqlAliases)
    ensures ParseConfigIni(ConfigIni(replicas, dataAliases, sqlAliases))
         == Some(ClusterLayout(replicas, dataAliases, sqlAliases))
  {
    var hosts := HostsText(dataAliases, sqlAliases);
    StripPrefixConcat(ConfigHeader, NdbdDefault(replicas) + hosts);
    ParseDefaultsRoundTrip(replicas, hosts);
    ParseHostsRoundTrip(dataAliases, sqlAliases);
  }

  /** Reads the `config.ini` out of the command that writes it. */
  function ParseConfigCommand(command: string): Option<ClusterLayout> {
    var body :- StripPrefix(command, ConfigCommandPrefix);
    if |body| >= 4 && body[|body| - 4..] == "EOF\n" then ParseConfigIni(body[..|body| - 4]) else None
  }

  /** Regrouping the eleven pieces of the command template (concatenation is associative). */
  lemma Regroup(a1: string, a2: string, a3: string, a4: string, a5: string, a6: string,
                a7: string, a8: string, a9: string, a10: string, a11: string)
    ensures a1 + a2 + a3 + a4 + a5 + a6 + a7 + a8 + a9 + a10 + a11
         == a1 + ((a2 + (a3 + (a4 + (a5 + (a6 + (a7 + (a8 + (a9 + a10)))))))) + a11)
  {
  }

  lemma ConfigCommandShape(replicas: int, dataAliases: seq<string>, sqlAliases: seq<string>)
    ensures ConfigCommand(replicas, dataAliases, sqlAliases)
         == ConfigCommandPrefix + (ConfigIni(replicas, dataAliases, sqlAliases) + "EOF\n")
  {
    Regroup(ConfigCommandPrefix, ConfigHeader, NdbdDefault(replicas), "  \n", NdbMgmd, "\n",
            Sections(DataNodeSection, dataAliases), "   \n", Sections(SqlNodeSection, sqlAliases), "\n", "EOF\n");
  }

  /** The command the management node receives carries the same layout. */
  lemma ConfigCommandRoundTrip(replicas: int, dataAliases: seq<string>, sqlAliases: seq<string>)
    requires NoNewlines(dataAliases) && NoNewlines(sqlAliases)
    ensures ParseConfigCommand(ConfigCommand(replicas, dataAliases, sqlAliases))
         == Some(ClusterLayout(replicas, dataAliases, sqlAliases))
  {
    var ini := ConfigIni(replicas, dataAliases, sqlAliases);
    var command := ConfigCommand(replicas, dataAliases, sqlAliases);
    ConfigCommandShape(replicas, dataAliases, sqlAliases);
    StripPrefixConcat(ConfigCommandPrefix, ini + "EOF\n");
    var body := ini + "EOF\n";
    assert body[..|body| - 4] == ini;
    ConfigIniRoundTrip(replicas, dataAliases, sqlAliases);
  }
}
