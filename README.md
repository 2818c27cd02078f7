# bookbrainz-schema in Dafny

This project models the core of the BookBrainz schema package. The core has five parts:

- **Entity data snapshots** (`bbschema/entity_data.py`). These are the versioned data of the five entity kinds: Publication, Creator, Publisher, Edition and Work. The model covers their equality, their creation from a request payload, their copying, and their update.
- **Legacy copy constructors** (`bbschema/entities.py`).
- **Revisions** (`bbschema/revision.py`). This covers the revision kinds, the note a revision shows, the parent/children links, the creation of relationship revisions, and an entity's master revision.
- **Dump and restore scripts** (`utils/dump.py`, `utils/import.py`).
- **The v0 to v1 migration** (`utils/v1_migration.py`). For each entity it replays the entity's entity revisions and relationship revisions in creation order. While replaying, it builds alias sets, identifier sets and relationship sets, writes the per-kind data and revision rows, moves the header's master revision, and links consecutive revisions as parent and child.

Python's dynamic values are one datatype, `PyValue.Value`:

- a request payload is a `map<string, Value>`;
- `dict.get` is `PyValue.Get`; subscripting is `PyValue.Subscript`;
- every exception the source can raise is an `Err` of a `Result`. Examples are a `KeyError` from a missing key, a `TypeError` from a wrong call, an `AttributeError` from a missing attribute and an `IndexError` from `[0]` on an empty list.

The source has defects. The model keeps them as written and states each one in a lemma:

- `EditionData.update` looks up the wrong key;
- `EditionData.create` calls `get()` without an argument;
- `CreatorData.copy` wraps fields in one-element tuples and spells a column wrongly;
- `WorkData.update` reads an attribute the language rows do not have.

The database is modelled as values:

- the session's lookups are maps in a `Session`;
- `create_aliases`, `update_aliases`, `Annotation` and `Disambiguation` are function-valued fields of a `Collaborators` record;
- the migration's writes go to an append-only `Store`. Each step returns the new `Store`, and every `RETURNING id` draws from one counter, `nextId`.

Where a piece of the source changes things step by step, the model has a method with a loop or an early return. Each such method is proved equal to a specification function, and the lemmas state their properties about that function. Examples of such source code are `limit_query`, the loops in `create`, the replay loop of `migrate_entity_data` and the dump and import loops.

## Model

| member | source | states |
|---|---|---|
| EntityDataModel.Lookup | bbschema/entity_data.py:177 | `session.query(...).get(key)` finds an object exactly when the key is stored, and returns the stored object |
| EntityDataModel.TypeCode | bbschema/entity_data.py:187-191 | each snapshot kind has a polymorphic code between 1 and 5, and that code loads back as the same kind |
| EntityDataModel.Copy | bbschema/entity_data.py:262-270 | a copy keeps the kind of the original and carries no identifiers |
| EntityDataModel.IdentifierCreate | bbschema/entity_data.py:87-95 | `Identifier.create` succeeds exactly when the entry and its `identifier_type` are dicts; the new identifier's value is the entry's `value`, or None |
| EntityDataModel.CreditNameCreate | bbschema/entity_data.py:170-180 | a credit name can be built from exactly the dict entries; its creator is the session lookup of `creator_gid` |
| EntityDataModel.CreateCreatorCredit | bbschema/entity_data.py:135-146 | the loop over `names` yields the same credit as the specification function `CreditCreated` |
| EntityDataModel.CreateCommon | bbschema/entity_data.py:224-238 | the identifier loop of `EntityData.create` yields the same common part as the specification function `CommonCreated` |
| EntityDataModel.AppendFoundLanguages | bbschema/entity_data.py:776-779 | the language loop appends exactly the languages the session finds, in payload order |
| EntityDataModel.CreateIdentifiers | bbschema/entity_data.py:234-236 | the identifier loop builds one identifier per entry, in order, and stops at the first entry that raises, as the specification function `MapResult` does |
| EntityDataModel.CollectLanguages | bbschema/entity_data.py:743-747 | the language loop of `WorkData.create` reads each entry's `language_id`, raising at the first entry without one, and keeps exactly the languages the session finds, in order |
| EntityDataModel.FoundLanguagesSnoc | bbschema/entity_data.py:743-747 | one more id appends the language the session finds for it, and nothing when there is none |
| EntityDataModel.CreateEdition | bbschema/entity_data.py:614-645 | `EditionData.create` agrees with the specification function for the Edition kind, including the early None and the failing publisher lookup |
| EntityDataModel.CreateWork | bbschema/entity_data.py:730-749 | `WorkData.create` agrees with the specification function for the Work kind |
| EntityDataModel.Create | bbschema/entity_data.py:224-238 | creating a snapshot of any kind agrees with the specification function `Created` |
| EntityDataModel.OverwriteNested | bbschema/entity_data.py:311-314 | a nested key overwrites the field only when both the outer and the inner key are present; otherwise the field keeps its current value |
| EntityDataModel.OverwriteMiskeyed | bbschema/entity_data.py:656-663 | the misspelled guard raises `KeyError` for the `_id` key whenever the outer key is present and the `_id` key is not |
| EntityDataModel.AddedIds | bbschema/entity_data.py:773 | at most one added language id per `(old, new)` pair |
| EntityDataModel.RemovedIds | bbschema/entity_data.py:772 | at most one removed language id per `(old, new)` pair |
| EntityDataModel.KeepLanguages | bbschema/entity_data.py:774 | filtering the copied languages by `language_id` succeeds exactly when the list is empty |
| EntityDataModel.FieldsUpdated | bbschema/entity_data.py:647-779 | each kind's own update keeps the kind and the base update's common part; an edition keeps its publication, credit and publisher, and a work whose payload has no `languages` keeps its language list |
| EntityDataModel.CreatorOverwritten | bbschema/entity_data.py:402-418 | a creator's update sets the type it was given and keeps the creator kind |
| EntityDataModel.PublisherOverwritten | bbschema/entity_data.py:509-523 | a publisher's update sets the type it was given and keeps the publisher kind |
| EntityDataModel.EditionOverwritten | bbschema/entity_data.py:650-666 | an edition's update keeps its publication, creator credit and publisher |
| EntityDataModel.LanguagesUpdated | bbschema/entity_data.py:770-779 | without a `languages` key a work's language list is kept |
| EntityDataModel.Candidate | bbschema/entity_data.py:240-260 | the new snapshot an update builds has the kind of the original |
| EntityDataModel.Update | bbschema/entity_data.py:308-319 | update fails exactly when building the candidate fails; otherwise it returns the original itself when the candidate compares equal to it, and the candidate when not |
| EntityDataProperties.SnapshotEqReflexiveSymmetric | bbschema/entity_data.py:211-221 | snapshot equality is reflexive and symmetric |
| EntityDataProperties.SnapshotEqIgnoresIdentifiersAndAliasTail | bbschema/entity_data.py:213-215 | equality compares aliases only pairwise up to the shorter list, and ignores identifiers |
| EntityDataProperties.SnapshotEqNotTransitive | bbschema/entity_data.py:213-215 | there are three snapshots with a == b and b == c but a != c |
| EntityDataProperties.EditionEqIgnoresReferences | bbschema/entity_data.py:601-611 | edition equality ignores the publication, the creator credit and the publisher |
| EntityDataProperties.WorkEqComparesLanguages | bbschema/entity_data.py:721-727 | two works that differ only in their languages are equal exactly when the language lists are equal |
| EntityDataProperties.AbsentKeysKeepCopiedFields | bbschema/entity_data.py:240-260 | an update whose payload has none of the kind's keys keeps the copied kind fields |
| EntityDataProperties.PublicationTypeUpdate | bbschema/entity_data.py:308-314 | the publication type comes from the payload exactly when `publication_type.publication_type_id` is given; otherwise it is kept |
| EntityDataProperties.FieldAt | bbschema/entity_data.py:308-779 | a kind has a field for exactly the plain, nested and miskeyed payload keys its `update` tests |
| EntityDataProperties.UpdatedFieldFollowsPayload | bbschema/entity_data.py:311-314 | for every kind and every key its update tests, whatever other keys the payload holds: an absent key keeps the copied value; a present plain key gives the payload's value; a present nested key holding a dict gives its inner id, or keeps the copy when the dict lacks it; a present miskeyed edition key requires `data[inner]` and takes `data[key][inner]` exactly when `key` is in it |
| EntityDataProperties.CreatorFieldFollowsPayload | bbschema/entity_data.py:402-418 | the same rule for each of a creator's eight keys |
| EntityDataProperties.CreatorOverwriteFollowsPayload | bbschema/entity_data.py:402-418 | the creator rule, given the type the nested test read |
| EntityDataProperties.PublisherFieldFollowsPayload | bbschema/entity_data.py:509-523 | the same rule for each of a publisher's seven keys |
| EntityDataProperties.PublisherOverwriteFollowsPayload | bbschema/entity_data.py:509-523 | the publisher rule, given the type the nested test read |
| EntityDataProperties.EditionFieldFollowsPayload | bbschema/entity_data.py:650-666 | the same rule for each of an edition's six keys, with the two miskeyed format and status tests as written |
| EntityDataProperties.EditionOverwriteFollowsPayload | bbschema/entity_data.py:650-666 | the edition rule, given the language, format and status the tests read |
| EntityDataProperties.EditionMiskeyedField | bbschema/entity_data.py:656-663 | a miskeyed test's outcome is the value the rule gives for that key |
| EntityDataProperties.MiskeyedFollows | bbschema/entity_data.py:656-663 | when the miskeyed test does not raise: an absent key keeps the value; a present key needs `data[inner]`, keeps the value when `key` is not in it, and otherwise takes `data[key][inner]` |
| EntityDataProperties.FieldsUpdatedSucceeds | bbschema/entity_data.py:308-779 | an update's own fields never raise when each nested key present holds a dict, the miskeyed edition keys are absent and a work has no language patch |
| EntityDataProperties.CandidateHasNoIdentifiers | bbschema/entity_data.py:262-270 | an updated snapshot never carries identifiers, because `copy` drops them and `update` does not restore them |
| EntityDataProperties.CandidateDefaultAlias | bbschema/entity_data.py:254-258 | an updated snapshot has the aliases `update_aliases` returns; its default alias changes only when `update_aliases` returns a new one |
| EntityDataProperties.EmptyUpdateIsNoOp | bbschema/entity_data.py:316-317 | for every kind except Creator, an empty update with no-op collaborators compares equal to the original |
| EntityDataProperties.TupleOfItselfDiffers | bbschema/entity_data.py:428 | a value wrapped in a one-element tuple never equals the value |
| EntityDataProperties.CreatorUpdateNeverNoOp | bbschema/entity_data.py:420-433 | a creator update that does not set `begin_date` keeps the tuple that `copy` made, so it never compares equal to the original |
| EntityDataProperties.CreatorCopyDropsCountry | bbschema/entity_data.py:433 | `CreatorData.copy` leaves `country_id` unset and stores the tuple under a misspelled `county_id` |
| EntityDataProperties.EditionFormatUpdateRaises | bbschema/entity_data.py:656-657 | an edition update that sets `edition_format` raises `KeyError('edition_format_id')` |
| EntityDataProperties.EditionStatusUpdateRaises | bbschema/entity_data.py:660-661 | an edition update that sets `edition_status` raises `KeyError('edition_status_id')` |
| EntityDataProperties.EditionCandidateLosesReferences | bbschema/entity_data.py:673-683 | the snapshot an edition update builds has no publication, credit or publisher |
| EntityDataProperties.EditionCreateNone | bbschema/entity_data.py:617-619 | creating an edition returns None exactly when the common part builds and `publication_gid` is missing |
| EntityDataProperties.EditionCreateNeedsCredit | bbschema/entity_data.py:625-626 | an edition with a publication but no `creator_credit` raises, because the credit creation calls `get` on None |
| EntityDataProperties.EditionCreateWithPublisherRaises | bbschema/entity_data.py:638-643 | an edition with a `publisher_gid` fails with a `TypeError` from the argument-less `get()` |
| EntityDataProperties.CreatedIdentifiers | bbschema/entity_data.py:234-236 | a created snapshot has one identifier per payload entry, in order, with that entry's value and type |
| EntityDataProperties.CreditNamesOnePerEntry | bbschema/entity_data.py:138-144 | a credit has the payload's begin phrase and one name per entry, each pointing at the looked-up creator |
| EntityDataProperties.CreatedAliasesFollowTests | tests/test_entity_data.py:41-60 | with an alias helper that behaves as the tests require, a named alias becomes the only alias and the default, and an unnamed one gives no aliases and no default |
| EntityDataProperties.FoundLanguagesMembers | bbschema/entity_data.py:743-747 | a language is appended exactly when some payload id finds it in the session |
| EntityDataProperties.AddedIdsMembers | bbschema/entity_data.py:773 | an id is added exactly when it is the `new` of a pair whose `old` is None |
| EntityDataProperties.WorkLanguagePatchOnEmpty | bbschema/entity_data.py:770-779 | on a work with no languages, a language patch yields exactly the languages that the added ids find |
| EntityDataProperties.WorkPatchOnEmptyLanguages | bbschema/entity_data.py:770-779 | a patch of well-formed pairs on a work without languages succeeds and leaves the languages found for the added ids |
| EntityDataProperties.AddedLanguagesMembers | bbschema/entity_data.py:771-779 | a language is found for the added ids exactly when some pair with an old side of None has a new id that the session maps to it |
| EntityDataProperties.WorkLanguagePatchOnNonEmptyRaises | bbschema/entity_data.py:774 | on a work that has languages, any language patch raises `AttributeError` for `language_id` |
| LegacyEntities.Copy | bbschema/entities.py:94-105 | the class-method copies build a fresh row with no base columns; only the Creator copy can fail, and it fails exactly when the constructor rejects the unknown `county_id` keyword |
| LegacyEntities.CopyPreservesKindColumns | bbschema/entities.py:53-55 | the Publication, Publisher, Edition and Work copies agree with the original on every column of their kind |
| LegacyEntities.CreatorCopyDropsCountry | bbschema/entities.py:102 | a Creator copy keeps every column except `country_id`, which it leaves unset; it agrees with the original exactly when the original had no country |
| LegacyEntities.CopyIdempotent | bbschema/entities.py:235-244 | copying a copy gives the same copy |
| Revisions.TypeCode | bbschema/revision.py:74-79 | each revision kind has a discriminant between 0 and 2, and that discriminant loads back as the same kind |
| Revisions.Note | bbschema/revision.py:63-67 | a revision has no note exactly when no note refers to it; otherwise its note is the content of a note of it posted no later than any other |
| Revisions.EarliestNote | bbschema/revision.py:63-67 | the earliest posted note of a revision, which exists exactly when some note refers to it |
| Revisions.Children | bbschema/revision.py:71-72 | the `children` backref has at most one entry per revision |
| Revisions.ChildrenInverseOfParent | bbschema/revision.py:71-72 | a revision is among the children of `id` exactly when its `parent_id` is `id` |
| Revisions.RootIsNoChild | bbschema/revision.py:61 | a revision with no parent is nobody's child |
| Revisions.CreateRelationshipRevision | bbschema/revision.py:135-144 | the result is None exactly when the relationship or its data is None; otherwise the revision carries the given user, relationship and data and has discriminant 2 |
| Revisions.Entity.constructor | bbschema/revision.py:99-100 | a new entity has no revisions and no master revision |
| Revisions.Entity.AddRevision | bbschema/revision.py:99-100 | attaching a revision appends it to `revisions` and leaves the master revision unchanged |
| Revisions.Entity.SetMasterRevision | tests/test_entity_revision.py:79 | assigning the master revision sets it and leaves the revision list unchanged |
| Dump.QualifiedName | utils/dump.py:210 | a table with a schema is named `schema.table`; a table without one keeps its bare name |
| Dump.PathJoin | utils/dump.py:193-194 | joining onto an absolute name yields that name |
| Dump.SchemaNames | utils/dump.py:164-166 | one qualified name per table of a schema |
| Dump.SchemaTableCountAppend | utils/dump.py:164-167 | the table count of a group grows by the table count of each schema walked |
| Dump.TableCountAppend | utils/dump.py:161-167 | the total table count grows by the table count of each group walked |
| Dump.GroupNamesCount | utils/dump.py:164-167 | a group dumps one file per table it lists |
| Dump.AllNamesCount | utils/dump.py:161-167 | `num_tables` equals the number of files dumped |
| Dump.DumpSchema | utils/dump.py:165-167 | the table loop dumps each table of one schema, in order, under its qualified name |
| Dump.DumpGroup | utils/dump.py:164-167 | the schema loop dumps every table of each schema of a group, schema by schema |
| Dump.DumpAll | utils/dump.py:152-167 | the dump loop dumps every table of the groups it walks, in the order it walks them, and counts them all |
| Dump.AllNamesAppend | utils/dump.py:161-167 | walking two runs of groups one after the other dumps the names of the first, then those of the second |
| Dump.AllNamesSplice | utils/dump.py:161-167 | a group walked between two runs of groups contributes its names between theirs |
| Dump.AllNamesOrderFree | utils/dump.py:161 | whatever order `GROUPS.keys()` yields, the same tables are dumped the same number of times |
| Dump.TableCountOfGroups | utils/dump.py:36-100 | the groups list 45 tables |
| Dump.CreatorDataDumpedTwice | utils/dump.py:42-44 | `bookbrainz.creator_data` is listed, and so dumped, twice in the core group |
| Dump.EditorGroupUnqualified | utils/dump.py:85-89 | the editor group's only table has no schema and is dumped as `user_sanitised` |
| Dump.ArchiveMembers | utils/dump.py:188-195 | one archive member per table of the group |
| Dump.CompressGroup | utils/dump.py:180-195 | a group goes into `bbdump-<group>.tar.bz2` under the destination, with one member per listed table |
| Dump.ArchiveNaming | utils/dump.py:185-194 | the archive path is `<dest>/bbdump-<group>.tar.bz2`, and each member is stored as `bbdump/<name>` |
| Restore.TargetTable | utils/import.py:99 | the file `user_sanitised` is loaded into `bookbrainz.user`; every other file loads into the table it is named after |
| Restore.ImportDirectory | utils/import.py:94-103 | every file is imported into its target table, and the count equals the number of files |
| Restore.DumpedTablesRestoreHome | utils/import.py:36-38 | every dumped file goes back to the table it came from; the sanitised editor table goes to `bookbrainz.user` |
| Restore.Split | utils/import.py:154 | splitting on `.` gives at least one part, and no part contains a dot |
| Restore.JoinSplit | utils/import.py:154 | joining the parts of a split with `.` gives back the original string |
| Restore.JoinAppend | utils/import.py:154 | joining parts followed by one more part puts a dot before that part |
| Restore.TableOfDropsLastComponent | utils/import.py:154 | the table of a dotted column name is everything before its last dot; a name without a dot gives an empty table |
| Restore.SplitDotted | utils/import.py:154 | splitting `prefix.last` gives the parts of `prefix` followed by `last` |
| Restore.TableOfDotted | utils/import.py:154 | the table of `prefix.last` is `prefix`, and its column is `last` |
| Restore.SplitOfDotless | utils/import.py:154 | a string without a dot splits into itself |
| Restore.SetSequenceValues | utils/import.py:146-156 | one `setval` query per listed sequence, in order |
| Restore.NextSequenceValue | utils/import.py:151-152 | a sequence restarts at 1 on an empty table; otherwise it restarts one past the largest stored value |
| Restore.WorkTypeSequenceReadsEditionStatus | utils/import.py:111-112 | the work-type sequence is reset from the edition-status column |
| MigrationRows.Members | utils/v1_migration.py:646-656 | a set has at most one member per membership row |
| MigrationRows.MemberRows | utils/v1_migration.py:646-656 | one membership row per id, in order, each in the given set |
| MigrationRows.MembersAppend | utils/v1_migration.py:646-656 | appending membership rows appends their members of each set |
| MigrationRows.MembersOfMemberRows | utils/v1_migration.py:646-656 | the members of a set are exactly the ids inserted into it, in order |
| MigrationRows.MembersOfOtherSet | utils/v1_migration.py:668-679 | rows inserted for one set add no member to any other set |
| MigrationRows.MembersOfUnusedSet | utils/v1_migration.py:711-715 | a set with a freshly returned id has no members yet |
| Migration.ConvertDate | utils/v1_migration.py:169-178 | no date gives three Nones; otherwise the year is kept, the month only at MONTH or DAY precision, and the day only at DAY precision |
| Migration.Page | utils/v1_migration.py:161 | a query page has at most `limit` rows: the rows from `offset` on, or none past the end |
| Migration.LimitQuery | utils/v1_migration.py:159-166 | paging with a positive limit yields every row exactly once, in order; a zero limit yields nothing |
| Migration.OrderedAppendLate | utils/v1_migration.py:614 | a revision created no earlier than the last of a creation-ordered list can be appended without breaking the order |
| Migration.OrderedInsertBefore | utils/v1_migration.py:614 | when an earlier revision is inserted among the others, the latest revision still ends the ordered list |
| Migration.InsertByCreation | utils/v1_migration.py:614 | inserting a revision into an ordered list keeps the list ordered by creation time and adds exactly that revision |
| Migration.SortByCreation | utils/v1_migration.py:614 | the sort is a permutation of its input and is ordered by `created_at` |
| Migration.RevisionsFound | utils/v1_migration.py:603-612 | the combined query returns only stored revisions |
| Migration.EntityRevisionsOf | utils/v1_migration.py:603-604 | exactly the entity revisions of the entity |
| Migration.RelationshipRevisionsOf | utils/v1_migration.py:605-608 | exactly the relationship revisions whose relationship has the entity at one of its ends |
| Migration.InsertAliasSet | utils/v1_migration.py:632-656 | the alias-set loop writes the same rows as the specification function `AliasSetCreated` |
| Migration.InsertIdentifierSet | utils/v1_migration.py:661-679 | the identifier-set loop writes the same rows as the specification function `IdentifierSetCreated` |
| Migration.EntityRevisionStep | utils/v1_migration.py:625-683 | an entity revision replaces the tracked data. Without a snapshot, the sets and the store are unchanged. Empty alias or identifier lists select the empty sets. Relationships are untouched and ids only grow |
| Migration.EndAt | utils/v1_migration.py:689-690 | picking the source or target succeeds exactly when some end has that position, and returns such an end; otherwise `[0]` raises `IndexError` |
| Migration.RelationshipRevisionStep | utils/v1_migration.py:684-745 | a relationship revision moves the tracked set to a freshly returned id, takes exactly one id, and leaves the headers and parent links alone |
| Migration.ColumnsFor | utils/v1_migration.py:748-784 | per-kind data columns exist exactly when the snapshot's fields belong to the entity's kind |
| Migration.WorkLanguageRows | utils/v1_migration.py:360-371 | one `work_data__language` row per language of the work, in order |
| Migration.DataAndRevisionInserted | utils/v1_migration.py:181-232 | inserting data and revision rows leaves every set, the headers and the parent links unchanged, and ids only grow |
| Migration.InsertDataAndRevision | utils/v1_migration.py:337-385 | the work-language loop writes the same rows as the specification function `DataAndRevisionInserted` |
| Migration.Lower | utils/v1_migration.py:532 | lower-casing keeps the length of the name |
| Migration.MasterRevisionSet | utils/v1_migration.py:531-537 | the UPDATE sets the master revision of the entity's header row when that row exists, and changes no other row and adds none |
| Migration.ParentLinked | utils/v1_migration.py:786-801 | a parent link is written and recorded exactly when there is a previous revision and the pair was not processed before |
| Migration.SetsStep | utils/v1_migration.py:625-745 | the set-building part of a step keeps the previous revision, updates the tracked data only on entity revisions, and leaves headers and parent links alone |
| Migration.RevisionStep | utils/v1_migration.py:623-803 | an unknown entity kind raises; a successful step makes this revision the previous one |
| Migration.ApplyRevision | utils/v1_migration.py:623-803 | one pass of the revision loop equals the specification function `RevisionStep` |
| Migration.ReplayEntity | utils/v1_migration.py:616-803 | the revision loop, which stops at the first exception, equals the specification function `Replay` |
| Migration.ReplayFailurePersists | utils/v1_migration.py:623-803 | once a prefix of the revisions raises, the whole replay raises the same exception |
| Migration.MigrationFailurePersists | utils/v1_migration.py:600-803 | once a prefix of the entities raises, the whole migration raises the same exception |
| Migration.MigrateEntity | utils/v1_migration.py:603-803 | migrating one entity equals the specification function `EntityMigrated` |
| Migration.MigrateEntityData | utils/v1_migration.py:586-803 | the migration creates the three empty sets, pages through the entities 100 at a time, and equals the specification function `Migrated` |
| MigrationProperties.AliasSetHoldsSnapshotAliases | utils/v1_migration.py:632-656 | a snapshot with aliases gets a new alias set with its default alias, and the set's members are exactly its aliases |
| MigrationProperties.IdentifierSetHoldsSnapshotIdentifiers | utils/v1_migration.py:661-679 | a snapshot with identifiers gets a new identifier set whose members are exactly its identifiers |
| MigrationProperties.SnapshotWithoutAliasesUsesEmptySets | utils/v1_migration.py:657-681 | a snapshot without aliases and identifiers reuses the empty sets and writes nothing |
| MigrationProperties.RelationshipSetIsCumulative | utils/v1_migration.py:693-745 | the new relationship set holds the previous set's members plus the new relationship, and the relationship row is inserted exactly when it was missing |
| MigrationProperties.EntityStepKeepsValid | utils/v1_migration.py:625-683 | an entity revision keeps every set and membership id below the id counter |
| MigrationProperties.RelationshipStepKeepsValid | utils/v1_migration.py:684-745 | a relationship revision keeps the store valid, and the tracked set id is already taken |
| MigrationProperties.RevisionStepKeepsValid | utils/v1_migration.py:623-803 | a whole step keeps the store valid and the header rows, and moves the relationship set only on relationship revisions |
| MigrationProperties.ReplayIsCumulative | utils/v1_migration.py:616-745 | after replaying, the tracked relationship set holds every relationship of the replayed revisions, in order, and the tracked data is the last entity revision's snapshot |
| MigrationProperties.RelationshipStepKeepsOlderSets | utils/v1_migration.py:710-745 | a relationship revision adds members only to its own new set; every set numbered below the next id keeps its members |
| MigrationProperties.StepKeepsOlderSets | utils/v1_migration.py:623-803 | a whole revision step keeps the members of every set numbered below the next id |
| MigrationProperties.ReplayKeepsOlderSets | utils/v1_migration.py:616-803 | a whole replay keeps the store valid, never lowers the next id and keeps the members of every older set |
| MigrationProperties.MigrationKeepsOlderSets | utils/v1_migration.py:599-803 | migrating entity after entity keeps the store valid and the members of every set older than the start |
| MigrationProperties.EmptySetsStartEmpty | utils/v1_migration.py:586-597 | the shared empty relationship set created first has no members, and a valid store stays valid |
| MigrationProperties.EveryEntityReplayIsCumulative | utils/v1_migration.py:586-803 | in a migration from a valid store, each entity's replay starts from a still-empty shared set, so its relationship set ends up holding exactly its own relationship revisions' relationships, in order |
| MigrationProperties.UnknownKindRaises | utils/v1_migration.py:783-784 | an entity of no known kind with any revision makes the replay raise |
| MigrationProperties.ReplayKeepsHeaderRows | utils/v1_migration.py:531-537 | replaying never adds or removes header rows |
| MigrationProperties.MasterIsLastReplayed | utils/v1_migration.py:748-782 | after replaying, the header's master revision is the last revision replayed |
| MigrationProperties.RevisionStepHeaders | utils/v1_migration.py:748-782 | one replayed revision adds no header row and points an existing header at that revision |
| MigrationProperties.ReplayEndsAtLast | utils/v1_migration.py:803 | after a replay the previous revision is the last one replayed |
| MigrationProperties.CreatorHeaderTable | utils/v1_migration.py:532-534 | Creator masters are written to `_bookbrainz.creator_header` |
| MigrationProperties.EditionHeaderTable | utils/v1_migration.py:532-534 | Edition masters are written to `_bookbrainz.edition_header` |
| MigrationProperties.WorkHeaderTable | utils/v1_migration.py:532-534 | Work masters are written to `_bookbrainz.work_header` |
| MigrationProperties.PublisherHeaderTable | utils/v1_migration.py:532-534 | Publisher masters are written to `_bookbrainz.publisher_header` |
| MigrationProperties.PublicationHeaderTable | utils/v1_migration.py:532-534 | Publication masters are written to `_bookbrainz.publication_header` |
| MigrationProperties.NoDuplicatesAppend | utils/v1_migration.py:789-801 | appending a pair that was not processed keeps the processed list free of duplicates |
| MigrationProperties.RevisionStepParent | utils/v1_migration.py:786-803 | a step records the pair (previous, current) exactly once, and only when there is a previous revision |
| MigrationProperties.ReplayRecordsParents | utils/v1_migration.py:786-803 | replaying keeps the written parent links equal to the processed pairs, without duplicates, and forgets no earlier pair |
| MigrationProperties.ReplayLinksEveryConsecutivePair | utils/v1_migration.py:786-803 | every two consecutive replayed revisions are linked as parent and child |
| MigrationProperties.ReplayLastLink | utils/v1_migration.py:786-803 | replaying one more revision keeps every earlier parent link, adds the link from the revision before it, and adds no other |
| MigrationProperties.ReplayLinksOnlyConsecutivePairs | utils/v1_migration.py:786-803 | every new link joins two consecutive replayed revisions |
| MigrationProperties.MigrationWritesEachParentOnce | utils/v1_migration.py:599-803 | across all entities, each parent link is written once |
| MigrationProperties.MigratedParentsOnce | utils/v1_migration.py:599-803 | a migration that starts with no parent links writes each link exactly once |
| MigrationProperties.NoSnapshotWritesRevisionOnly | utils/v1_migration.py:222-232 | a revision without a snapshot writes only the revision row, with no data id |
| MigrationProperties.SnapshotRowPointsAtSets | utils/v1_migration.py:185-232 | with a snapshot, exactly one data row is written, pointing at the current sets, and the revision row points at it; this fails exactly when the fields do not match the kind |
| MigrationProperties.EditionRowsWritten | utils/v1_migration.py:266-320 | an edition snapshot appends exactly its release-event, language and publisher rows |
| MigrationProperties.EditionRowsFollowSnapshot | utils/v1_migration.py:266-320 | the release event is written exactly when there is a release date, the language row exactly when there is a language, and the publisher row exactly when there is a publisher |
| MigrationProperties.WorkRowsFollowSnapshot | utils/v1_migration.py:360-371 | a work snapshot appends one language row per language, in order, and nothing else |
| MigrationProperties.ReplayedRevisionsOfEntity | utils/v1_migration.py:603-614 | the replayed revisions are ordered by creation time and are exactly the entity's entity revisions and the relationship revisions that involve it |

## Left out

- The pure SQL steps are not modelled: `migrate_types`, `migrate_editors`, `migrate_revisions`, `migrate_entities` and the `INSERT … SELECT` copies at the start of `migrate_entity_data` (`utils/v1_migration.py:34-156`, `476-529`, `540-578`). They copy rows between schemas with no logic outside SQL. The migration assumes that the header rows they create already exist.
- The migration script ends with `session.rollback()` (`utils/v1_migration.py:838`) and never commits, so the database keeps none of the rows the migration writes. The model's `Store` is the session state inside `migrate_entity_data`, before that rollback; the rollback itself is not modelled.
- The migration's `print` calls and the dump and restore log messages are output only, and are left out.
- Dump.DumpAll: the model walks the groups in declaration order. Under Python 2, which the scripts target, `GROUPS.keys()` (`utils/dump.py:161`, `170`) yields them in an arbitrary order. `Dump.AllNamesOrderFree` shows that the tables dumped, and how often each is, do not depend on that order, and `num_tables` is their number. Each archive depends only on its own group. Only the order of the dump calls is fixed by the model.
- Migration.LimitQuery: pages are assumed to come in one fixed order. The source's query has no `ORDER BY`, so the database may reorder rows between pages.
- Migration.SortByCreation: the contract states ordered and a permutation, but not stability. Python's `sorted` is stable, so revisions created at the same instant keep their query order there; no lemma states this of the model.
- Migration.RelationshipRevisionsOf: the join in `utils/v1_migration.py:605-608` matches a relationship revision once per end that names the entity. Whether the ORM then reports that revision once or twice depends on its row de-duplication, which is not part of this model. The model lists each revision once.
- Migration.ConvertDate: the precision is an enumeration. The source compares the strings `'DAY'` and `'MONTH'`.
- The v0 rows the migration reads use attributes of the older schema (edition width, pages, publisher and release events). They are fields of the model's input records, because that schema is not part of this model.
- Every `RETURNING id` in the migration draws from one counter. The database uses one sequence per table, so only distinctness and growth are modelled, not the actual id values.
- `WorkData.copy` and the `entities.py` Work copy share the original's language list instead of copying it (`bbschema/entity_data.py:790`). Values cannot alias, so the model does not capture this sharing.
- Iterating a dict where the source expects a list yields the dict's keys in an unspecified order. The model returns `Unsupported` for it.
- Python's equality between values of different types is modelled as structural equality of `Value`.
- A foreign-key column and its relationship attribute are one field (`default_alias_id` and `default_alias`, `annotation_id` and `annotation`). SQLAlchemy's flush-time synchronisation of the two is not modelled.
- EntityDataProperties.EmptyUpdateIsNoOp: assumes collaborators that hand back the original aliases and default alias unchanged. The default alias is one field here, not an id plus an object (see the foreign-key line above), so the lemma does not cover an `update_aliases` that returns a different object for the same alias row.
- `create_aliases`, `update_aliases`, `Annotation`, `Disambiguation` and the session's queries live outside the core. They are parameters (`Collaborators`, `Session`), constrained only where the tests pin them down.
- LegacyEntities.Copy: whether the declarative base rejects the unknown `county_id` keyword is a parameter, because the base class is not part of this model.
- Database connections, `COPY TO`/`COPY FROM`, temporary directories, tar archives and the command-line options of the dump and import scripts are I/O. The model produces the names, paths, queries and counts those calls receive.
