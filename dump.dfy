/** The dump script's naming and counting: the table groups, the qualified
    name of each dumped table, the walk over all groups that dumps every
    table and counts them, and the archive each group is compressed into.
    The database and file-system effects are left out; the walk returns
    the names it dumps, in order. */
module Dump {
  import opened PyValue

  /** The tables of one schema; the editor group's table has no schema. */
  datatype SchemaTables = SchemaTables(schema: Option<string>, tables: seq<string>)

  datatype Group = Group(name: string, schemas: seq<SchemaTables>)

  /** The `bookbrainz` tables of the core group. `creator_data` is listed twice. */
  const CoreTables: seq<string> := [
    "alias", "creator_credit", "creator_credit_name", "creator_data", "creator_type", "creator_data",
    "disambiguation", "edition_data", "edition_format", "edition_status", "entity", "entity_data",
    "entity_data__alias", "entity_data__identifier", "entity_redirect", "entity_revision", "identifier",
    "identifier_type", "publication_data", "publication_type", "publisher_data", "publisher_type", "rel",
    "rel_data", "rel_entity", "rel_revision", "rel_text", "rel_type", "revision", "user_language",
    "user_type", "work_data", "work_data__language", "work_type"]

  /** `GROUPS`, in declaration order. */
  const Groups: seq<Group> := [
    Group("core", [
      SchemaTables(Some("bookbrainz"), CoreTables),
      SchemaTables(Some("musicbrainz"), ["language", "gender"])]),
    Group("derived", [SchemaTables(Some("bookbrainz"), ["annotation", "revision_note"])]),
    Group("editor", [SchemaTables(None, ["user_sanitised"])]),
    Group("private", [
      SchemaTables(Some("bookbrainz"), [
        "inactive_users", "message", "message_receipt", "oauth_client", "suspended_users", "user"])])
  ]

  /** `schema + '.' + table` when there is a schema, the bare table name
      otherwise. */
  function QualifiedName(schema: Option<string>, table: string): (r: string)
    ensures schema.None? ==> r == table
    ensures schema.Some? ==> |r| == |schema.value| + 1 + |table| && r[..|schema.value|] == schema.value &&
                             r[|schema.value|] == '.' && r[|schema.value| + 1..] == table
  {
    if schema.Some? then schema.value + "." + table else table
  }

  /** `os.path.join(directory, name)` on POSIX paths. */
  function PathJoin(directory: string, name: string): (r: string)
    ensures |name| > 0 && name[0] == '/' ==> r == name
  {
    if |name| > 0 && name[0] == '/' then name
    else if directory == [] || directory[|directory| - 1] == '/' then directory + name
    else directory + "/" + name
  }

  /** The qualified names of one schema's tables, in order. */
  function SchemaNames(st: SchemaTables): (r: seq<string>)
    ensures |r| == |st.tables|
  {
    seq(|st.tables|, i requires 0 <= i < |st.tables| => QualifiedName(st.schema, st.tables[i]))
  }

  /** The qualified names of a group's tables, schema by schema. */
  function GroupNames(schemas: seq<SchemaTables>): seq<string>
  {
    if schemas == [] then []
    else GroupNames(schemas[..|schemas| - 1]) + SchemaNames(schemas[|schemas| - 1])
  }

  /** The qualified names of all groups' tables, group by group. */
  function AllNames(groups: seq<Group>): seq<string>
  {
    if groups == [] then []
    else AllNames(groups[..|groups| - 1]) + GroupNames(groups[|groups| - 1].schemas)
  }

  /** One more table adds its qualified name. */
  lemma SchemaNamesSnoc(schema: Option<string>, tables: seq<string>, t: nat)
    requires t < |tables|
    ensures SchemaNames(SchemaTables(schema, tables[..t + 1])) ==
            SchemaNames(SchemaTables(schema, tables[..t])) + [QualifiedName(schema, tables[t])]
  {
  }

  /** One more schema adds its tables' names. */
  lemma GroupNamesSnoc(schemas: seq<SchemaTables>, s: nat)
    requires s < |schemas|
    ensures GroupNames(schemas[..s + 1]) == GroupNames(schemas[..s]) + SchemaNames(schemas[s])
  {
    assert schemas[..s + 1][..s] == schemas[..s];
  }

  /** One more group adds its schemas' names. */
  lemma AllNamesSnoc(groups: seq<Group>, g: nat)
    requires g < |groups|
    ensures AllNames(groups[..g + 1]) == AllNames(groups[..g]) + GroupNames(groups[g].schemas)
  {
    assert groups[..g + 1][..g] == groups[..g];
  }

  /** The number of table entries in some schemas. */
  function SchemaTableCount(schemas: seq<SchemaTables>): nat
  {
    if schemas == [] then 0 else |schemas[0].tables| + SchemaTableCount(schemas[1..])
  }

  /** The number of table entries across some groups, duplicates included. */
  function TableCount(groups: seq<Group>): nat
  {
    if groups == [] then 0 else SchemaTableCount(groups[0].schemas) + TableCount(groups[1..])
  }

  lemma {:induction false} SchemaTableCountAppend(schemas: seq<SchemaTables>, st: SchemaTables)
    ensures SchemaTableCount(schemas + [st]) == SchemaTableCount(schemas) + |st.tables|
  {
    if schemas == [] {
      assert [st][1..] == [];
    } else {
      assert (schemas + [st])[1..] == schemas[1..] + [st];
      SchemaTableCountAppend(schemas[1..], st);
    }
  }

  lemma {:induction false} TableCountAppend(groups: seq<Group>, g: Group)
    ensures TableCount(groups + [g]) == TableCount(groups) + SchemaTableCount(g.schemas)
  {
    if groups == [] {
      assert [g][1..] == [];
    } else {
      assert (groups + [g])[1..] == groups[1..] + [g];
      TableCountAppend(groups[1..], g);
    }
  }

  /** A group contributes one name per table entry. */
  lemma {:induction false} GroupNamesCount(schemas: seq<SchemaTables>)
    ensures |GroupNames(schemas)| == SchemaTableCount(schemas)
  {
    if schemas != [] {
      var front := schemas[..|schemas| - 1];
      GroupNamesCount(front);
      SchemaTableCountAppend(front, schemas[|schemas| - 1]);
      assert front + [schemas[|schemas| - 1]] == schemas;
    }
  }

  /** The walk dumps one name per table entry: the count it reports is the
      number of names it dumped. */
  lemma {:induction false} AllNamesCount(groups: seq<Group>)
    ensures |AllNames(groups)| == TableCount(groups)
  {
    if groups != [] {
      var front := groups[..|groups| - 1];
      AllNamesCount(front);
      GroupNamesCount(groups[|groups| - 1].schemas);
      TableCountAppend(front, groups[|groups| - 1]);
      assert front + [groups[|groups| - 1]] == groups;
    }
  }

  /** The names of two runs of groups, one after the other. */
  lemma {:induction false} AllNamesAppend(a: seq<Group>, b: seq<Group>)
    ensures AllNames(a + b) == AllNames(a) + AllNames(b)
    decreases |b|
  {
    if b == [] {
      assert a + b == a;
    } else {
      var front, last := b[..|b| - 1], b[|b| - 1];
      AllNamesAppend(a, front);
      var ab := a + b;
      assert ab[..|ab| - 1] == a + front && ab[|ab| - 1] == last;
      assert AllNames(ab) == AllNames(a + front) + GroupNames(last.schemas);
      assert AllNames(b) == AllNames(front) + GroupNames(last.schemas);
    }
  }

  /** The names of one group placed between two runs of groups. */
  lemma AllNamesSplice(a: seq<Group>, g: Group, b: seq<Group>)
    ensures AllNames(a + [g] + b) == AllNames(a) + GroupNames(g.schemas) + AllNames(b)
  {
    AllNamesAppend(a + [g], b);
    AllNamesAppend(a, [g]);
    assert AllNames([g]) == GroupNames(g.schemas) by {
      assert [g][..0] == [];
    }
  }

  /** Taking the same element away from two equal multisets leaves equal ones. */
  lemma MultisetCancel<T>(x: multiset<T>, y: multiset<T>, e: T)
    requires x + multiset{e} == y + multiset{e}
    ensures x == y
  {
    forall z ensures x[z] == y[z] {
      assert (x + multiset{e})[z] == (y + multiset{e})[z];
    }
  }

  /** The order in which the groups are walked does not change which tables
      are dumped, nor how often each is. */
  lemma {:induction false} AllNamesOrderFree(groups: seq<Group>, reordered: seq<Group>)
    requires multiset(groups) == multiset(reordered)
    ensures multiset(AllNames(groups)) == multiset(AllNames(reordered))
    decreases |groups|
  {
    if groups == [] {
      assert |reordered| == |multiset(reordered)| == 0;
    } else {
      var n := |groups|;
      var last := groups[n - 1];
      var front := groups[..n - 1];
      assert groups == front + [last];
      assert last in multiset(reordered);
      var i :| 0 <= i < |reordered| && reordered[i] == last;
      var a, b := reordered[..i], reordered[i + 1..];
      assert reordered == a + [last] + b;
      assert multiset(groups) == multiset(front) + multiset{last};
      assert multiset(reordered) == multiset(a + b) + multiset{last};
      MultisetCancel(multiset(front), multiset(a + b), last);
      AllNamesOrderFree(front, a + b);
      AllNamesAppend(a, b);
      AllNamesSplice(a, last, b);
      var names := GroupNames(last.schemas);
      assert AllNames(groups) == AllNames(front) + names;
      assert multiset(AllNames(reordered)) == multiset(AllNames(a)) + multiset(names) + multiset(AllNames(b));
    }
  }

  /** `dump`: walk every group, schema and table, dumping each table under
      its qualified name and counting it. */
  method DumpAll(groups: seq<Group>) returns (dumped: seq<string>, numTables: nat)
    ensures dumped == AllNames(groups)
    ensures numTables == TableCount(groups)
  {
    dumped, numTables := [], 0;
    var g := 0;
    while g < |groups|
      invariant 0 <= g <= |groups|
      invariant dumped == AllNames(groups[..g])
      invariant numTables == |dumped|
    {
      AllNamesSnoc(groups, g);
      var names := DumpGroup(groups[g].schemas);
      dumped := dumped + names;
      numTables := numTables + |names|;
      g := g + 1;
    }
    assert groups[..g] == groups;
    AllNamesCount(groups);
  }

  /** The walk over one group's schemas, dumping each schema's tables. */
  method DumpGroup(schemas: seq<SchemaTables>) returns (dumped: seq<string>)
    ensures dumped == GroupNames(schemas)
  {
    dumped := [];
    var s := 0;
    while s < |schemas|
      invariant 0 <= s <= |schemas|
      invariant dumped == GroupNames(schemas[..s])
    {
      GroupNamesSnoc(schemas, s);
      var names := DumpSchema(schemas[s].schema, schemas[s].tables);
      dumped := dumped + names;
      s := s + 1;
    }
    assert schemas[..s] == schemas;
  }

  /** The walk over one schema's tables, dumping each under its qualified
      name. */
  method DumpSchema(schema: Option<string>, tables: seq<string>) returns (dumped: seq<string>)
    ensures dumped == SchemaNames(SchemaTables(schema, tables))
  {
    dumped := [];
    var t := 0;
    while t < |tables|
      invariant 0 <= t <= |tables|
      invariant dumped == SchemaNames(SchemaTables(schema, tables[..t]))
    {
      SchemaNamesSnoc(schema, tables, t);
      dumped := dumped + [QualifiedName(schema, tables[t])];
      t := t + 1;
    }
    assert tables[..t] == tables;
  }

  /** The configured groups hold 45 table entries. */
  lemma TableCountOfGroups()
    ensures TableCount(Groups) == 45
  {
    assert Groups[0].schemas[0].tables == CoreTables;
    assert |CoreTables| == 34;
    var core := Groups[0].schemas;
    assert SchemaTableCount(core[2..]) == 0;
    assert SchemaTableCount(core[1..]) == 2;
    assert SchemaTableCount(core) == 36;
    assert TableCount(Groups[3..]) == 6;
    assert TableCount(Groups[2..]) == 7;
    assert TableCount(Groups[1..]) == 9;
  }

  /** `creator_data` is dumped twice. */
  lemma CreatorDataDumpedTwice()
    ensures var names := SchemaNames(Groups[0].schemas[0]);
            names[3] == names[5] == "bookbrainz.creator_data"
  {
    var names := SchemaNames(Groups[0].schemas[0]);
    assert Groups[0].schemas[0] == SchemaTables(Some("bookbrainz"), CoreTables);
    assert names[3] == QualifiedName(Some("bookbrainz"), CoreTables[3]);
    assert names[5] == QualifiedName(Some("bookbrainz"), CoreTables[5]);
    assert CoreTables[3] == CoreTables[5] == "creator_data";
    CreatorDataName();
  }

  lemma CreatorDataName()
    ensures QualifiedName(Some("bookbrainz"), "creator_data") == "bookbrainz.creator_data"
  {
  }

  /** The editor group's single table has no schema and is dumped under its
      bare name. */
  lemma EditorGroupUnqualified()
    ensures Groups[2].name == "editor"
    ensures GroupNames(Groups[2].schemas) == ["user_sanitised"]
  {
    assert Groups[2].schemas[..0] == [];
  }

  /** The archive a group is compressed into. */
  function ArchiveName(destDir: string, groupName: string): string
  {
    PathJoin(destDir, "bbdump-" + groupName + ".tar.bz2")
  }

  /** Each table file `sourceDir/<name>` is stored as `bbdump/<name>`. */
  function ArchiveMembers(sourceDir: string, names: seq<string>): (r: seq<(string, string)>)
    ensures |r| == |names|
  {
    seq(|names|, i requires 0 <= i < |names| => (PathJoin(sourceDir, names[i]), PathJoin("bbdump", names[i])))
  }

  /** `compress_group`: one archive member per table of the group, in order. */
  method CompressGroup(sourceDir: string, group: Group, destDir: string)
    returns (archive: string, members: seq<(string, string)>)
    ensures archive == ArchiveName(destDir, group.name)
    ensures members == ArchiveMembers(sourceDir, GroupNames(group.schemas))
  {
    archive := PathJoin(destDir, "bbdump-" + group.name + ".tar.bz2");
    members := [];
    ghost var added: seq<string> := [];
    var schemas := group.schemas;
    var s := 0;
    while s < |schemas|
      invariant 0 <= s <= |schemas|
      invariant added == GroupNames(schemas[..s])
      invariant members == ArchiveMembers(sourceDir, added)
    {
      assert schemas[..s + 1][..s] == schemas[..s];
      var schema, tables := schemas[s].schema, schemas[s].tables;
      ghost var beforeSchema := added;
      var t := 0;
      while t < |tables|
        invariant 0 <= t <= |tables|
        invariant added == beforeSchema + SchemaNames(SchemaTables(schema, tables[..t]))
        invariant members == ArchiveMembers(sourceDir, added)
      {
        assert SchemaNames(SchemaTables(schema, tables[..t + 1])) ==
               SchemaNames(SchemaTables(schema, tables[..t])) + [QualifiedName(schema, tables[t])];
        var qualifiedName := QualifiedName(schema, tables[t]);
        members := members + [(PathJoin(sourceDir, qualifiedName), PathJoin("bbdump", qualifiedName))];
        added := added + [qualifiedName];
        t := t + 1;
      }
      assert tables[..t] == tables;
      s := s + 1;
    }
    assert schemas[..s] == schemas;
  }

  /** A group's archive is `<destDir>/bbdump-<group>.tar.bz2`, and a table
      whose name does not start with `/` is stored as `bbdump/<name>`. */
  lemma {:induction false} ArchiveNaming(destDir: string, groupName: string, name: string)
    requires destDir != [] && destDir[|destDir| - 1] != '/'
    requires name != [] && name[0] != '/'
    ensures ArchiveName(destDir, groupName) == destDir + "/bbdump-" + groupName + ".tar.bz2"
    ensures PathJoin("bbdump", name) == "bbdump/" + name
  {
    assert ("bbdump-" + groupName + ".tar.bz2")[0] == 'b';
  }
}
