/** The import script's naming: the table each dump file is loaded into,
    the count of loaded files, and the queries that reset every sequence
    after loading. The database effects are left out; the loops return the
    tables they load into and the queries they issue, in order. */
module Restore {
  import opened PyValue
  import Dump

  /** `TABLE_RENAMES`: the sanitised user dump restores into the real user
      table. */
  const TableRenames: map<string, string> := map["user_sanitised" := "bookbrainz.user"]

  /** `TABLE_RENAMES.get(name, name)`. */
  function TargetTable(fileName: string): (r: string)
    ensures fileName == "user_sanitised" ==> r == "bookbrainz.user"
    ensures fileName != "user_sanitised" ==> r == fileName
  {
    if fileName in TableRenames then TableRenames[fileName] else fileName
  }

  /** `import_directory`: each file is loaded into its target table and
      counted. The directory listing is a parameter. */
  method ImportDirectory(fileNames: seq<string>) returns (tables: seq<string>, numTables: nat)
    ensures |tables| == |fileNames| && numTables == |fileNames|
    ensures forall i :: 0 <= i < |fileNames| ==> tables[i] == TargetTable(fileNames[i])
  {
    tables, numTables := [], 0;
    for i := 0 to |fileNames|
      invariant |tables| == i && numTables == i
      invariant forall j :: 0 <= j < i ==> tables[j] == TargetTable(fileNames[j])
    {
      tables := tables + [TargetTable(fileNames[i])];
      numTables := numTables + 1;
    }
  }

  /** Every table the dump writes is restored into the table it came
      from, except the sanitised user table, which restores into
      `bookbrainz.user`. */
  lemma DumpedTablesRestoreHome(i: nat)
    requires i < |Dump.AllNames(Dump.Groups)|
    ensures var name := Dump.AllNames(Dump.Groups)[i];
            TargetTable(name) == if name == "user_sanitised" then "bookbrainz.user" else name
  {
  }

  // ---------------------------------------------------------------------
  // Sequences
  // ---------------------------------------------------------------------

  /** `s.split('.')`. */
  function Split(s: string): (r: seq<string>)
    ensures |r| >= 1
    ensures forall i :: 0 <= i < |r| ==> '.' !in r[i]
    decreases |s|
  {
    if s == [] then [""]
    else
      var rest := Split(s[1..]);
      if s[0] == '.' then [""] + rest
      else [[s[0]] + rest[0]] + rest[1..]
  }

  /** `'.'.join(parts)`. */
  function Join(parts: seq<string>): string
  {
    if parts == [] then ""
    else if |parts| == 1 then parts[0]
    else parts[0] + "." + Join(parts[1..])
  }

  /** Splitting and joining at the dots gives back the string. */
  lemma {:induction false} JoinSplit(s: string)
    ensures Join(Split(s)) == s
    decreases |s|
  {
    if s != [] {
      var rest := Split(s[1..]);
      JoinSplit(s[1..]);
      if s[0] == '.' {
        assert s == "." + s[1..];
      } else if |rest| == 1 {
        assert s == [s[0]] + s[1..];
      } else {
        assert Split(s)[1..] == rest[1..];
        assert s == [s[0]] + s[1..];
      }
    }
  }

  /** Joining a list with one more part appends a dot and that part. */
  lemma {:induction false} JoinAppend(parts: seq<string>, last: string)
    requires parts != []
    ensures Join(parts + [last]) == Join(parts) + "." + last
    decreases |parts|
  {
    if |parts| > 1 {
      assert (parts + [last])[1..] == parts[1..] + [last];
      JoinAppend(parts[1..], last);
    }
  }

  /** The table part of a dotted column name:
      `'.'.join(column.split('.')[:-1])`. */
  function TableOf(column: string): string
  {
    var parts := Split(column);
    Join(parts[..|parts| - 1])
  }

  /** The last component of a dotted column name. */
  function ColumnOf(column: string): string
  {
    var parts := Split(column);
    parts[|parts| - 1]
  }

  /** The table of a column with a dot is what precedes its last dot: the
      column is the table, a dot and a last component without dots. A column
      without a dot has the empty table. */
  lemma {:induction false} TableOfDropsLastComponent(column: string)
    ensures '.' !in ColumnOf(column)
    ensures '.' in column ==> column == TableOf(column) + "." + ColumnOf(column)
    ensures '.' !in column ==> TableOf(column) == ""
  {
    var parts := Split(column);
    JoinSplit(column);
    if |parts| == 1 {
      assert column == parts[0];
    } else {
      assert parts == parts[..|parts| - 1] + [parts[|parts| - 1]];
      JoinAppend(parts[..|parts| - 1], parts[|parts| - 1]);
    }
  }

  /** `SEQUENCES`: (sequence, column) pairs in declaration order. */
  const Sequences: seq<(string, string)> := [
    ("bookbrainz.disambiguation_id_seq", "bookbrainz.disambiguation.disambiguation_id"),
    ("bookbrainz.edition_status_id_seq", "bookbrainz.edition_status.edition_status_id"),
    ("musicbrainz.language_id_seq", "musicbrainz.language.id"),
    ("bookbrainz.work_type_id_seq", "bookbrainz.edition_status.edition_status_id"),
    ("bookbrainz.entity_data_id_seq", "bookbrainz.entity_data.entity_data_id"),
    ("bookbrainz.rel_type_id_seq", "bookbrainz.rel_type.relationship_type_id"),
    ("bookbrainz.annotation_id_seq", "bookbrainz.annotation.annotation_id"),
    ("bookbrainz.creator_type_id_seq", "bookbrainz.creator_type.creator_type_id"),
    ("musicbrainz.gender_id_seq", "musicbrainz.gender.id"),
    ("bookbrainz.user_type_id_seq", "bookbrainz.user_type.user_type_id"),
    ("bookbrainz.publisher_type_id_seq", "bookbrainz.publisher_type.publisher_type_id"),
    ("bookbrainz.publication_type_id_seq", "bookbrainz.publication_type.publication_type_id"),
    ("bookbrainz.user_id_seq", "bookbrainz.user.user_id"),
    ("bookbrainz.alias_id_seq", "bookbrainz.alias.alias_id"),
    ("bookbrainz.rel_tree_id_seq", "bookbrainz.rel_data.relationship_data_id"),
    ("bookbrainz.revision_id_seq", "bookbrainz.revision.revision_id"),
    ("bookbrainz.message_message_id_seq", "bookbrainz.message.message_id"),
    ("bookbrainz.rel_id_seq", "bookbrainz.rel.relationship_id"),
    ("bookbrainz.edit_note_id_seq", "bookbrainz.revision_note.revision_note_id"),
    ("bookbrainz.creator_credit_creator_credit_id_seq", "bookbrainz.creator_credit.creator_credit_id"),
    ("bookbrainz.identifier_type_identifier_type_id_seq", "bookbrainz.identifier_type.identifier_type_id"),
    ("bookbrainz.identifier_identifier_id_seq", "bookbrainz.identifier.identifier_id"),
    ("bookbrainz.edition_format_edition_format_id_seq", "bookbrainz.edition_format.edition_format_id")
  ]

  /** The `setval` query for one sequence: next value max(column) + 1 over
      the column's table, or 1 when the table is empty. */
  function SetvalQuery(sequence: string, column: string): string
  {
    "SELECT setval('" + sequence + "', COALESCE((SELECT MAX(" + column + ") + 1 FROM " + TableOf(column) +
    "), 1), false)"
  }

  /** `set_sequence_values`: one query per sequence, in order. */
  method SetSequenceValues(sequences: seq<(string, string)>) returns (queries: seq<string>)
    ensures |queries| == |sequences|
    ensures forall i :: 0 <= i < |sequences| ==> queries[i] == SetvalQuery(sequences[i].0, sequences[i].1)
  {
    queries := [];
    for i := 0 to |sequences|
      invariant |queries| == i
      invariant forall j :: 0 <= j < i ==> queries[j] == SetvalQuery(sequences[j].0, sequences[j].1)
    {
      var (sequence, column) := sequences[i];
      var table := TableOf(column);
      queries := queries + ["SELECT setval('" + sequence + "', COALESCE((SELECT MAX(" + column + ") + 1 FROM " +
                            table + "), 1), false)"];
    }
  }

  /** The value the query gives the sequence for a column holding `values`:
      `COALESCE(MAX(column) + 1, 1)`, and with `is_called` false the next
      id handed out is exactly that. */
  function NextSequenceValue(values: seq<int>): (r: int)
    ensures values == [] ==> r == 1
    ensures values != [] ==> r - 1 in values
    ensures forall v :: v in values ==> v < r
  {
    if values == [] then 1
    else
      var rest := NextSequenceValue(values[1..]);
      assert values == [values[0]] + values[1..];
      if values[1..] == [] || values[0] + 1 > rest then values[0] + 1 else rest
  }

  /** The work type sequence is reset from the edition status column, so
      its next value follows the edition status ids rather than the work
      type ids. */
  lemma WorkTypeSequenceReadsEditionStatus()
    ensures Sequences[3].0 == "bookbrainz.work_type_id_seq"
    ensures TableOf(Sequences[3].1) == "bookbrainz.edition_status"
    ensures Sequences[3].1 == Sequences[1].1
  {
    var column := Sequences[3].1;
    assert column == "bookbrainz.edition_status" + "." + "edition_status_id";
    TableOfDotted("bookbrainz.edition_status", "edition_status_id");
  }

  /** Splitting `prefix + "." + last`, when `last` has no dot, splits the
      prefix and adds `last` as the final part. */
  lemma {:induction false} SplitDotted(prefix: string, last: string)
    requires '.' !in last
    ensures Split(prefix + "." + last) == Split(prefix) + [last]
    decreases |prefix|
  {
    var s := prefix + "." + last;
    if prefix == [] {
      assert s[1..] == last;
      SplitOfDotless(last);
    } else {
      assert s[1..] == prefix[1..] + "." + last;
      SplitDotted(prefix[1..], last);
    }
  }

  /** The table of `prefix + "." + last` is `prefix` whenever `last` has no
      dot: exactly the last dotted component is removed. */
  lemma {:induction false} TableOfDotted(prefix: string, last: string)
    requires '.' !in last
    ensures TableOf(prefix + "." + last) == prefix
    ensures ColumnOf(prefix + "." + last) == last
  {
    SplitDotted(prefix, last);
    var parts := Split(prefix) + [last];
    assert parts[..|parts| - 1] == Split(prefix);
    JoinSplit(prefix);
  }

  /** A string without a dot splits into itself. */
  lemma {:induction false} SplitOfDotless(s: string)
    requires '.' !in s
    ensures Split(s) == [s]
    decreases |s|
  {
    if s != [] {
      assert '.' !in s[1..] by {
        forall k | 0 <= k < |s[1..]| ensures s[1..][k] != '.' { assert s[1..][k] == s[k + 1]; }
      }
      SplitOfDotless(s[1..]);
      assert s == [s[0]] + s[1..];
    }
  }
}
