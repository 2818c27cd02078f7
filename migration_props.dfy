/** Properties of the history replay: the set rules of each kind of
    revision, the cumulative relationship set, the snapshot a revision
    points at, the master revision after a replay, and the parent links
    written over a whole run. */
module MigrationProperties {
  import opened PyValue
  import opened MigrationRows
  import opened Migration

  // ---------------------------------------------------------------------
  // Alias and identifier sets
  // ---------------------------------------------------------------------

  /** An entity revision with aliases gets a fresh alias set whose default
      is the snapshot's default alias and whose members are exactly the
      snapshot's aliases, in order. */
  lemma {:induction false} AliasSetHoldsSnapshotAliases(st: ReplayState, store: Store, empty: EmptySets, d: V0Data)
    requires Valid(store)
    requires d.aliasIds != []
    ensures var r := EntityRevisionStep(st, store, empty, Some(d));
            && r.0.aliasSetId == store.nextId
            && r.1.aliasSets == store.aliasSets + [SetRow(store.nextId, d.defaultAliasId)]
            && Members(r.1.aliasSetMembers, r.0.aliasSetId) == d.aliasIds
  {
    var setId := store.nextId;
    MembersAppend(store.aliasSetMembers, MemberRows(setId, d.aliasIds), setId);
    MembersOfUnusedSet(store.aliasSetMembers, setId);
    MembersOfMemberRows(setId, d.aliasIds);
  }

  /** An entity revision with identifiers gets a fresh identifier set whose
      members are exactly the snapshot's identifiers, in order. */
  lemma {:induction false} IdentifierSetHoldsSnapshotIdentifiers(st: ReplayState, store: Store, empty: EmptySets,
                                                                 d: V0Data)
    requires Valid(store)
    requires d.identifierIds != []
    ensures var r := EntityRevisionStep(st, store, empty, Some(d));
            && store.nextId <= r.0.identifierSetId
            && r.1.identifierSets == store.identifierSets + [SetRow(r.0.identifierSetId, None)]
            && Members(r.1.identifierSetMembers, r.0.identifierSetId) == d.identifierIds
  {
    var withAliases := if d.aliasIds != [] then AliasSetCreated(store, d.defaultAliasId, d.aliasIds)
                       else (store, empty.aliasSet);
    var setId := withAliases.0.nextId;
    assert withAliases.0.identifierSetMembers == store.identifierSetMembers;
    MembersAppend(store.identifierSetMembers, MemberRows(setId, d.identifierIds), setId);
    MembersOfUnusedSet(store.identifierSetMembers, setId);
    MembersOfMemberRows(setId, d.identifierIds);
  }

  /** A snapshot without aliases or identifiers writes no set and points
      at the shared empty sets. */
  lemma SnapshotWithoutAliasesUsesEmptySets(st: ReplayState, store: Store, empty: EmptySets, d: V0Data)
    requires d.aliasIds == [] && d.identifierIds == []
    ensures var r := EntityRevisionStep(st, store, empty, Some(d));
            r.0.aliasSetId == empty.aliasSet && r.0.identifierSetId == empty.identifierSet && r.1 == store
  {
  }

  // ---------------------------------------------------------------------
  // Relationship sets
  // ---------------------------------------------------------------------

  /** A relationship revision inserts the relationship row exactly when no
      row has its id, and its new set holds the previous set's
      relationships followed by the new one. */
  lemma {:induction false} RelationshipSetIsCumulative(st: ReplayState, store: Store, rel: V0RelData)
    requires Valid(store)
    requires RelationshipRevisionStep(st, store, rel).Ok?
    ensures var r := RelationshipRevisionStep(st, store, rel).value;
            && Members(r.1.relationshipSetMembers, r.0.relationshipSetId) ==
               Members(store.relationshipSetMembers, st.relationshipSetId) + [rel.relationshipDataId]
            && r.1.relationshipSets == store.relationshipSets + [SetRow(store.nextId, None)]
            && (RelationshipExists(store, rel.relationshipDataId) <==> r.1.relationships == store.relationships)
            && (!RelationshipExists(store, rel.relationshipDataId) ==>
                  |r.1.relationships| == |store.relationships| + 1 &&
                  r.1.relationships[..|store.relationships|] == store.relationships &&
                  r.1.relationships[|store.relationships|].id == rel.relationshipDataId)
  {
    var newSetId := store.nextId;
    var rows := store.relationshipSetMembers;
    var previous := Members(rows, st.relationshipSetId);
    var copied := MemberRows(newSetId, previous);
    var added := [MemberRow(newSetId, rel.relationshipDataId)];
    MembersAppend(rows + copied, added, newSetId);
    MembersAppend(rows, copied, newSetId);
    MembersOfUnusedSet(rows, newSetId);
    MembersOfMemberRows(newSetId, previous);
    assert Members(added, newSetId) == [rel.relationshipDataId] by {
      assert added[..0] == [];
    }
    if !RelationshipExists(store, rel.relationshipDataId) {
      var r := RelationshipRevisionStep(st, store, rel).value;
      assert r.1.relationships != store.relationships by {
        assert |r.1.relationships| == |store.relationships| + 1;
      }
    }
  }

  // ---------------------------------------------------------------------
  // What a revision step leaves alone
  // ---------------------------------------------------------------------

  /** An entity revision's set bookkeeping keeps the store valid. */
  lemma {:induction false} EntityStepKeepsValid(st: ReplayState, store: Store, empty: EmptySets, data: Option<V0Data>)
    requires Valid(store)
    ensures Valid(EntityRevisionStep(st, store, empty, data).1)
  {
    if data.Some? {
      var d := data.value;
      var withAliases := if d.aliasIds != [] then AliasSetCreated(store, d.defaultAliasId, d.aliasIds)
                         else (store, empty.aliasSet);
      assert Valid(withAliases.0);
      var withIdentifiers := if d.identifierIds != [] then IdentifierSetCreated(withAliases.0, d.identifierIds)
                             else (withAliases.0, empty.identifierSet);
      assert Valid(withIdentifiers.0);
    }
  }

  /** A relationship revision's set bookkeeping keeps the store valid, and
      its new set is numbered below the next id. */
  lemma {:induction false} RelationshipStepKeepsValid(st: ReplayState, store: Store, rel: V0RelData)
    requires Valid(store)
    requires RelationshipRevisionStep(st, store, rel).Ok?
    ensures var r := RelationshipRevisionStep(st, store, rel).value;
            Valid(r.1) && r.0.relationshipSetId < r.1.nextId
  {
    var r := RelationshipRevisionStep(st, store, rel).value;
    var copied := MemberRows(store.nextId, Members(store.relationshipSetMembers, st.relationshipSetId));
    assert r.1.relationshipSetMembers ==
           store.relationshipSetMembers + copied + [MemberRow(store.nextId, rel.relationshipDataId)];
    forall m | m in r.1.relationshipSetMembers ensures m.setId < r.1.nextId {
      if m !in store.relationshipSetMembers && m !in copied {
        assert m == MemberRow(store.nextId, rel.relationshipDataId);
      }
    }
  }

  /** A revision step keeps the store valid, takes only fresh ids and keeps
      the header rows; an entity revision leaves the relationship sets
      alone, and a relationship revision's new set is the current one. */
  lemma {:induction false} RevisionStepKeepsValid(st: ReplayState, progress: Progress, empty: EmptySets,
                                                  entity: V0Entity, revision: V0Revision)
    requires Valid(progress.store)
    requires RevisionStep(st, progress, empty, entity, revision).Ok?
    ensures var r := RevisionStep(st, progress, empty, entity, revision).value;
            var after := SetsStep(st, progress.store, empty, revision).value;
            && Valid(r.1.store) && progress.store.nextId <= r.1.store.nextId
            && r.1.store.headers.Keys == progress.store.headers.Keys
            && r.0.data == (if revision.V0EntityRevision? then revision.data else st.data)
            && r.0.relationshipSetId == after.0.relationshipSetId
            && r.1.store.relationshipSetMembers == after.1.relationshipSetMembers
            && (revision.V0EntityRevision? ==>
                  r.0.relationshipSetId == st.relationshipSetId &&
                  after.1.relationshipSetMembers == progress.store.relationshipSetMembers)
            && (revision.V0RelationshipRevision? ==> r.0.relationshipSetId < r.1.store.nextId)
  {
    var after := SetsStep(st, progress.store, empty, revision).value;
    if revision.V0EntityRevision? {
      EntityStepKeepsValid(st, progress.store, empty, revision.data);
    } else {
      RelationshipStepKeepsValid(st, progress.store, revision.relData);
    }
    assert Valid(after.1);
    var sets := SetIds(after.0.aliasSetId, after.0.identifierSetId, after.0.relationshipSetId);
    var withRows := DataAndRevisionInserted(after.1, entity.kind, entity.gid, revision.revisionId, after.0.data, sets);
    var withMaster := MasterRevisionSet(withRows.value, KindName(entity.kind), entity.gid, revision.revisionId);
    assert Valid(withMaster);
    var r := RevisionStep(st, progress, empty, entity, revision).value;
    assert r.0 == after.0.(previous := Some(revision.revisionId));
    assert r.1.store == withMaster.(revisionParents := r.1.store.revisionParents);
  }

  // ---------------------------------------------------------------------
  // A whole replay
  // ---------------------------------------------------------------------

  /** The relationships the relationship revisions add, in order. */
  function RelationshipIds(revisions: seq<V0Revision>): seq<int>
  {
    if revisions == [] then []
    else
      var last := revisions[|revisions| - 1];
      RelationshipIds(revisions[..|revisions| - 1]) +
      (if last.V0RelationshipRevision? then [last.relData.relationshipDataId] else [])
  }

  /** The snapshot of the last entity revision, or none without one. */
  function LastEntityData(revisions: seq<V0Revision>): Option<V0Data>
  {
    if revisions == [] then None
    else
      var last := revisions[|revisions| - 1];
      if last.V0EntityRevision? then last.data else LastEntityData(revisions[..|revisions| - 1])
  }

  /** Over a whole replay that starts from the shared empty relationship
      set: the current relationship set holds every relationship added so
      far, in order; the current snapshot is the last entity revision's
      (none before the first, and a null snapshot resets it); the store
      stays valid and the header rows stay the same. */
  lemma {:induction false} ReplayIsCumulative(entity: V0Entity, revisions: seq<V0Revision>, empty: EmptySets,
                                              progress: Progress)
    requires Valid(progress.store)
    requires empty.relationshipSet < progress.store.nextId
    requires Members(progress.store.relationshipSetMembers, empty.relationshipSet) == []
    requires Replay(entity, revisions, empty, progress).Ok?
    ensures var r := Replay(entity, revisions, empty, progress).value;
            && Valid(r.1.store) && progress.store.nextId <= r.1.store.nextId
            && r.0.relationshipSetId < r.1.store.nextId
            && Members(r.1.store.relationshipSetMembers, r.0.relationshipSetId) == RelationshipIds(revisions)
            && r.0.data == LastEntityData(revisions)
            && r.1.store.headers.Keys == progress.store.headers.Keys
    decreases |revisions|
  {
    if revisions != [] {
      var front := revisions[..|revisions| - 1];
      var revision := revisions[|revisions| - 1];
      ReplayIsCumulative(entity, front, empty, progress);
      var before := Replay(entity, front, empty, progress).value;
      RevisionStepKeepsValid(before.0, before.1, empty, entity, revision);
      if revision.V0RelationshipRevision? {
        RelationshipSetIsCumulative(before.0, before.1.store, revision.relData);
      }
    }
  }

  /** A relationship revision adds members only to its own new set, so a
      set numbered below the next id keeps its members. */
  lemma {:induction false} RelationshipStepKeepsOlderSets(st: ReplayState, store: Store, rel: V0RelData, setId: int)
    requires setId < store.nextId
    requires RelationshipRevisionStep(st, store, rel).Ok?
    ensures Members(RelationshipRevisionStep(st, store, rel).value.1.relationshipSetMembers, setId) ==
            Members(store.relationshipSetMembers, setId)
  {
    var newSetId := store.nextId;
    var rows := store.relationshipSetMembers;
    var copied := MemberRows(newSetId, Members(rows, st.relationshipSetId));
    var added := [MemberRow(newSetId, rel.relationshipDataId)];
    MembersAppend(rows + copied, added, setId);
    MembersAppend(rows, copied, setId);
    MembersOfOtherSet(newSetId, Members(rows, st.relationshipSetId), setId);
    assert Members(added, setId) == [] by {
      assert added[..0] == [];
    }
  }

  /** A revision step leaves the members of every set numbered below the
      next id as they were. */
  lemma {:induction false} StepKeepsOlderSets(st: ReplayState, progress: Progress, empty: EmptySets, entity: V0Entity,
                                              revision: V0Revision, setId: int)
    requires Valid(progress.store)
    requires setId < progress.store.nextId
    requires RevisionStep(st, progress, empty, entity, revision).Ok?
    ensures Members(RevisionStep(st, progress, empty, entity, revision).value.1.store.relationshipSetMembers, setId) ==
            Members(progress.store.relationshipSetMembers, setId)
  {
    RevisionStepKeepsValid(st, progress, empty, entity, revision);
    if revision.V0RelationshipRevision? {
      RelationshipStepKeepsOlderSets(st, progress.store, revision.relData, setId);
    }
  }

  /** A whole replay keeps the store valid and leaves the members of every
      set numbered below its starting next id as they were. */
  lemma {:induction false} ReplayKeepsOlderSets(entity: V0Entity, revisions: seq<V0Revision>, empty: EmptySets,
                                                progress: Progress, setId: int)
    requires Valid(progress.store)
    requires setId < progress.store.nextId
    requires Replay(entity, revisions, empty, progress).Ok?
    ensures var r := Replay(entity, revisions, empty, progress).value.1.store;
            && Valid(r) && progress.store.nextId <= r.nextId
            && Members(r.relationshipSetMembers, setId) == Members(progress.store.relationshipSetMembers, setId)
    decreases |revisions|
  {
    if revisions != [] {
      var front := revisions[..|revisions| - 1];
      var revision := revisions[|revisions| - 1];
      ReplayKeepsOlderSets(entity, front, empty, progress, setId);
      var before := Replay(entity, front, empty, progress).value;
      RevisionStepKeepsValid(before.0, before.1, empty, entity, revision);
      StepKeepsOlderSets(before.0, before.1, empty, entity, revision, setId);
    }
  }

  /** Migrating entities one after the other keeps the store valid and
      leaves the members of every set numbered below the starting next id
      as they were. */
  lemma {:induction false} MigrationKeepsOlderSets(db: V0Db, entities: seq<V0Entity>, empty: EmptySets,
                                                   progress: Progress, setId: int)
    requires Valid(progress.store)
    requires setId < progress.store.nextId
    requires MigrateEntities(db, entities, empty, progress).Ok?
    ensures var r := MigrateEntities(db, entities, empty, progress).value.store;
            && Valid(r) && progress.store.nextId <= r.nextId
            && Members(r.relationshipSetMembers, setId) == Members(progress.store.relationshipSetMembers, setId)
    decreases |entities|
  {
    if entities != [] {
      var front := entities[..|entities| - 1];
      var entity := entities[|entities| - 1];
      MigrationKeepsOlderSets(db, front, empty, progress, setId);
      var before := MigrateEntities(db, front, empty, progress).value;
      ReplayKeepsOlderSets(entity, SortByCreation(RevisionsFound(db.revisions, entity.gid)), empty, before, setId);
    }
  }

  /** Creating the three shared empty sets keeps a valid store valid, and
      the new relationship set has no members and a number below the next
      id. */
  lemma EmptySetsStartEmpty(store: Store)
    requires Valid(store)
    ensures var created := EmptySetsCreated(store);
            && Valid(created.0)
            && created.1.relationshipSet < created.0.nextId
            && Members(created.0.relationshipSetMembers, created.1.relationshipSet) == []
  {
    MembersOfUnusedSet(store.relationshipSetMembers, store.nextId);
  }

  /** In a migration from a valid store, every entity's replay starts from
      the shared empty relationship set with that set still empty, so each
      entity's current relationship set ends up holding exactly the
      relationships of its own relationship revisions, in order. */
  lemma EveryEntityReplayIsCumulative(db: V0Db, store: Store, i: nat, before: Progress)
    requires Valid(store)
    requires i < |db.entities|
    requires var created := EmptySetsCreated(store);
             MigrateEntities(db, db.entities[..i], created.1, Progress(created.0, [])) == Ok(before)
    requires var entity := db.entities[i];
             Replay(entity, SortByCreation(RevisionsFound(db.revisions, entity.gid)), EmptySetsCreated(store).1,
                    before).Ok?
    ensures var entity := db.entities[i];
            var revisions := SortByCreation(RevisionsFound(db.revisions, entity.gid));
            var r := Replay(entity, revisions, EmptySetsCreated(store).1, before).value;
            && Members(r.1.store.relationshipSetMembers, r.0.relationshipSetId) == RelationshipIds(revisions)
            && r.0.data == LastEntityData(revisions)
  {
    var created := EmptySetsCreated(store);
    var entity := db.entities[i];
    EmptySetsStartEmpty(store);
    MigrationKeepsOlderSets(db, db.entities[..i], created.1, Progress(created.0, []), created.1.relationshipSet);
    ReplayIsCumulative(entity, SortByCreation(RevisionsFound(db.revisions, entity.gid)), created.1, before);
  }

  /** An entity of a kind the replay does not know raises as soon as it has
      a revision. */
  lemma UnknownKindRaises(entity: V0Entity, revisions: seq<V0Revision>, empty: EmptySets, progress: Progress)
    requires entity.kind == OtherKind && revisions != []
    ensures Replay(entity, revisions, empty, progress).Err?
  {
  }

  /** One step keeps the header rows and points the entity's header row,
      when it has one, at this revision. */
  lemma RevisionStepHeaders(st: ReplayState, progress: Progress, empty: EmptySets, entity: V0Entity,
                            revision: V0Revision)
    requires RevisionStep(st, progress, empty, entity, revision).Ok?
    ensures var headers := RevisionStep(st, progress, empty, entity, revision).value.1.store.headers;
            var key := (HeaderTable(KindName(entity.kind)), entity.gid);
            && headers.Keys == progress.store.headers.Keys
            && (key in progress.store.headers ==> headers[key] == Some(revision.revisionId))
  {
    var after := SetsStep(st, progress.store, empty, revision).value;
    var sets := SetIds(after.0.aliasSetId, after.0.identifierSetId, after.0.relationshipSetId);
    var withRows := DataAndRevisionInserted(after.1, entity.kind, entity.gid, revision.revisionId, after.0.data, sets);
    var withMaster := MasterRevisionSet(withRows.value, KindName(entity.kind), entity.gid, revision.revisionId);
    assert RevisionStep(st, progress, empty, entity, revision).value.1.store.headers == withMaster.headers;
  }

  /** A replay keeps the header rows: it only updates existing ones. */
  lemma {:induction false} ReplayKeepsHeaderRows(entity: V0Entity, revisions: seq<V0Revision>, empty: EmptySets,
                                                 progress: Progress)
    requires Replay(entity, revisions, empty, progress).Ok?
    ensures Replay(entity, revisions, empty, progress).value.1.store.headers.Keys == progress.store.headers.Keys
    decreases |revisions|
  {
    if revisions != [] {
      var front := revisions[..|revisions| - 1];
      ReplayKeepsHeaderRows(entity, front, empty, progress);
      var before := Replay(entity, front, empty, progress).value;
      RevisionStepHeaders(before.0, before.1, empty, entity, revisions[|revisions| - 1]);
    }
  }

  /** After a replay the entity's master revision is the last revision
      replayed, whenever the entity has a header row. */
  lemma {:induction false} MasterIsLastReplayed(entity: V0Entity, revisions: seq<V0Revision>, empty: EmptySets,
                                                progress: Progress)
    requires revisions != []
    requires Replay(entity, revisions, empty, progress).Ok?
    requires (HeaderTable(KindName(entity.kind)), entity.gid) in progress.store.headers
    ensures var headers := Replay(entity, revisions, empty, progress).value.1.store.headers;
            && (HeaderTable(KindName(entity.kind)), entity.gid) in headers
            && headers[(HeaderTable(KindName(entity.kind)), entity.gid)] == Some(revisions[|revisions| - 1].revisionId)
  {
    var front := revisions[..|revisions| - 1];
    ReplayKeepsHeaderRows(entity, front, empty, progress);
    var before := Replay(entity, front, empty, progress).value;
    RevisionStepHeaders(before.0, before.1, empty, entity, revisions[|revisions| - 1]);
  }

  /** The header table of each kind the replay dispatches on. */
  lemma CreatorHeaderTable()
    ensures HeaderTable(KindName(Creator)) == "_bookbrainz.creator_header"
  {
    assert Lower("Creator") == "creator" by {
      assert forall i :: 0 <= i < |"Creator"| ==> Lower("Creator")[i] == "creator"[i];
    }
  }

  lemma EditionHeaderTable()
    ensures HeaderTable(KindName(Edition)) == "_bookbrainz.edition_header"
  {
    assert Lower("Edition") == "edition" by {
      assert forall i :: 0 <= i < |"Edition"| ==> Lower("Edition")[i] == "edition"[i];
    }
  }

  lemma WorkHeaderTable()
    ensures HeaderTable(KindName(Work)) == "_bookbrainz.work_header"
  {
    assert Lower("Work") == "work" by {
      assert forall i :: 0 <= i < |"Work"| ==> Lower("Work")[i] == "work"[i];
    }
  }

  lemma PublisherHeaderTable()
    ensures HeaderTable(KindName(Publisher)) == "_bookbrainz.publisher_header"
  {
    assert Lower("Publisher") == "publisher" by {
      assert forall i :: 0 <= i < |"Publisher"| ==> Lower("Publisher")[i] == "publisher"[i];
    }
  }

  lemma PublicationHeaderTable()
    ensures HeaderTable(KindName(Publication)) == "_bookbrainz.publication_header"
  {
    assert Lower("Publication") == "publication" by {
      assert forall i :: 0 <= i < |"Publication"| ==> Lower("Publication")[i] == "publication"[i];
    }
  }

  // ---------------------------------------------------------------------
  // Parent links
  // ---------------------------------------------------------------------

  /** No pair is listed twice. */
  predicate NoDuplicates(pairs: seq<(int, int)>)
  {
    forall i, j :: 0 <= i < j < |pairs| ==> pairs[i] != pairs[j]
  }

  /** The parent links written so far are exactly the remembered pairs,
      each once. */
  predicate ParentsRecorded(progress: Progress)
  {
    progress.store.revisionParents == progress.processed && NoDuplicates(progress.processed)
  }

  /** Appending a pair that is not yet listed keeps the list free of
      duplicates. */
  lemma NoDuplicatesAppend(pairs: seq<(int, int)>, pair: (int, int))
    requires NoDuplicates(pairs) && pair !in pairs
    ensures NoDuplicates(pairs + [pair])
  {
    forall i, j | 0 <= i < j < |pairs + [pair]| ensures (pairs + [pair])[i] != (pairs + [pair])[j] {
      if j == |pairs| {
        assert (pairs + [pair])[i] == pairs[i];
      }
    }
  }

  /** A revision step writes at most one parent link, from the previous
      revision to this one, and only when that pair is new; the first
      revision of an entity writes none. */
  lemma {:induction false} RevisionStepParent(st: ReplayState, progress: Progress, empty: EmptySets, entity: V0Entity,
                                              revision: V0Revision)
    requires ParentsRecorded(progress)
    requires RevisionStep(st, progress, empty, entity, revision).Ok?
    ensures var p := RevisionStep(st, progress, empty, entity, revision).value.1;
            && ParentsRecorded(p)
            && (st.previous.None? ==> p.processed == progress.processed)
            && (st.previous.Some? ==>
                  (st.previous.value, revision.revisionId) in p.processed &&
                  p.processed == progress.processed +
                    (if (st.previous.value, revision.revisionId) in progress.processed then []
                     else [(st.previous.value, revision.revisionId)]))
  {
    if st.previous.Some? && (st.previous.value, revision.revisionId) !in progress.processed {
      NoDuplicatesAppend(progress.processed, (st.previous.value, revision.revisionId));
    }
  }

  /** A replay keeps the parent links equal to the remembered pairs, each
      once, and ends with its last revision as the previous one. */
  lemma {:induction false} ReplayRecordsParents(entity: V0Entity, revisions: seq<V0Revision>, empty: EmptySets,
                                                progress: Progress)
    requires ParentsRecorded(progress)
    requires Replay(entity, revisions, empty, progress).Ok?
    ensures ParentsRecorded(Replay(entity, revisions, empty, progress).value.1)
    ensures forall pair :: pair in progress.processed ==> pair in Replay(entity, revisions, empty, progress).value.1.processed
    decreases |revisions|
  {
    if revisions != [] {
      var front := revisions[..|revisions| - 1];
      ReplayRecordsParents(entity, front, empty, progress);
      var before := Replay(entity, front, empty, progress).value;
      RevisionStepParent(before.0, before.1, empty, entity, revisions[|revisions| - 1]);
    }
  }

  /** After a replay the previous revision is the last one replayed. */
  lemma ReplayEndsAtLast(entity: V0Entity, revisions: seq<V0Revision>, empty: EmptySets, progress: Progress)
    requires revisions != []
    requires Replay(entity, revisions, empty, progress).Ok?
    ensures Replay(entity, revisions, empty, progress).value.0.previous == Some(revisions[|revisions| - 1].revisionId)
  {
  }

  /** The last revision of a replay keeps every earlier link, adds the link
      from the revision before it, and adds no other. */
  lemma {:induction false} ReplayLastLink(entity: V0Entity, revisions: seq<V0Revision>, empty: EmptySets,
                                          progress: Progress)
    requires ParentsRecorded(progress)
    requires revisions != []
    requires Replay(entity, revisions, empty, progress).Ok?
    ensures Replay(entity, revisions[..|revisions| - 1], empty, progress).Ok?
    ensures var n := |revisions|;
            var q := Replay(entity, revisions[..n - 1], empty, progress).value.1.processed;
            var p := Replay(entity, revisions, empty, progress).value.1.processed;
            && (forall pair :: pair in q ==> pair in p)
            && (n >= 2 ==> (revisions[n - 2].revisionId, revisions[n - 1].revisionId) in p)
            && (forall pair :: pair in p ==>
                  pair in q || (n >= 2 && pair == (revisions[n - 2].revisionId, revisions[n - 1].revisionId)))
  {
    var n := |revisions|;
    var front := revisions[..n - 1];
    ReplayRecordsParents(entity, front, empty, progress);
    var before := Replay(entity, front, empty, progress).value;
    RevisionStepParent(before.0, before.1, empty, entity, revisions[n - 1]);
    assert Replay(entity, revisions, empty, progress) == RevisionStep(before.0, before.1, empty, entity, revisions[n - 1]);
    if n >= 2 {
      ReplayEndsAtLast(entity, front, empty, progress);
      assert front[n - 2] == revisions[n - 2];
    } else {
      assert before.0.previous.None?;
    }
  }

  /** Over a replay every consecutive pair of revisions is linked, child
      after parent. */
  lemma {:induction false} ReplayLinksEveryConsecutivePair(entity: V0Entity, revisions: seq<V0Revision>,
                                                           empty: EmptySets, progress: Progress)
    requires ParentsRecorded(progress)
    requires Replay(entity, revisions, empty, progress).Ok?
    ensures var p := Replay(entity, revisions, empty, progress).value.1;
            forall i :: 1 <= i < |revisions| ==> (revisions[i - 1].revisionId, revisions[i].revisionId) in p.processed
    decreases |revisions|
  {
    if revisions != [] {
      var n := |revisions|;
      var front := revisions[..n - 1];
      ReplayLastLink(entity, revisions, empty, progress);
      ReplayLinksEveryConsecutivePair(entity, front, empty, progress);
      var p := Replay(entity, revisions, empty, progress).value.1;
      forall i | 1 <= i < n - 1 ensures (revisions[i - 1].revisionId, revisions[i].revisionId) in p.processed {
        assert front[i - 1] == revisions[i - 1] && front[i] == revisions[i];
      }
    }
  }

  /** Over a replay every parent link written was written before or links
      two consecutive revisions. */
  lemma {:induction false} ReplayLinksOnlyConsecutivePairs(entity: V0Entity, revisions: seq<V0Revision>,
                                                           empty: EmptySets, progress: Progress)
    requires ParentsRecorded(progress)
    requires Replay(entity, revisions, empty, progress).Ok?
    ensures var p := Replay(entity, revisions, empty, progress).value.1;
            forall pair :: pair in p.processed ==>
              pair in progress.processed ||
              exists i :: 1 <= i < |revisions| && pair == (revisions[i - 1].revisionId, revisions[i].revisionId)
    decreases |revisions|
  {
    if revisions != [] {
      var n := |revisions|;
      var front := revisions[..n - 1];
      ReplayLastLink(entity, revisions, empty, progress);
      ReplayLinksOnlyConsecutivePairs(entity, front, empty, progress);
      var q := Replay(entity, front, empty, progress).value.1;
      var p := Replay(entity, revisions, empty, progress).value.1;
      forall pair | pair in p.processed && pair !in progress.processed
        ensures exists i :: 1 <= i < n && pair == (revisions[i - 1].revisionId, revisions[i].revisionId)
      {
        if pair in q.processed {
          var i :| 1 <= i < n - 1 && pair == (front[i - 1].revisionId, front[i].revisionId);
          assert revisions[i - 1] == front[i - 1] && revisions[i] == front[i];
        } else {
          assert pair == (revisions[n - 2].revisionId, revisions[n - 1].revisionId);
        }
      }
    }
  }

  /** Over the whole run, starting without parent links, the links written
      are exactly the remembered pairs and no pair is written twice. */
  lemma {:induction false} MigrationWritesEachParentOnce(db: V0Db, entities: seq<V0Entity>, empty: EmptySets,
                                                         progress: Progress)
    requires ParentsRecorded(progress)
    requires MigrateEntities(db, entities, empty, progress).Ok?
    ensures ParentsRecorded(MigrateEntities(db, entities, empty, progress).value)
    decreases |entities|
  {
    if entities != [] {
      var front := entities[..|entities| - 1];
      var entity := entities[|entities| - 1];
      MigrationWritesEachParentOnce(db, front, empty, progress);
      var before := MigrateEntities(db, front, empty, progress).value;
      ReplayRecordsParents(entity, SortByCreation(RevisionsFound(db.revisions, entity.gid)), empty, before);
    }
  }

  /** A migration from a store without parent links records each link it
      writes exactly once. */
  lemma MigratedParentsOnce(db: V0Db, store: Store)
    requires store.revisionParents == []
    requires Migrated(db, store).Ok?
    ensures ParentsRecorded(Migrated(db, store).value)
  {
    var created := EmptySetsCreated(store);
    MigrationWritesEachParentOnce(db, db.entities, created.1, Progress(created.0, []));
  }

  // ---------------------------------------------------------------------
  // Snapshot and revision rows
  // ---------------------------------------------------------------------

  /** A revision without a snapshot writes only its revision row, pointing
      at no snapshot. */
  lemma NoSnapshotWritesRevisionOnly(store: Store, kind: EntityKind, gid: Gid, revisionId: int, sets: SetIds)
    requires kind != OtherKind
    ensures DataAndRevisionInserted(store, kind, gid, revisionId, None, sets) ==
            Ok(store.(revisionRows := store.revisionRows + [RevisionRow(RevisionTable(kind), revisionId, gid, None)]))
  {
  }

  /** A revision with a snapshot of its entity's kind writes a snapshot row
      with a fresh id, pointing at the current sets, and a revision row
      pointing at that snapshot; a snapshot of another kind raises. */
  lemma SnapshotRowPointsAtSets(store: Store, kind: EntityKind, gid: Gid, revisionId: int, d: V0Data, sets: SetIds)
    requires kind != OtherKind
    ensures var r := DataAndRevisionInserted(store, kind, gid, revisionId, Some(d), sets);
            && (r.Ok? <==> ColumnsFor(kind, d.fields).Ok?)
            && (r.Ok? ==>
                  && r.value.dataRows == store.dataRows +
                       [DataRow(store.nextId, sets.aliasSetId, sets.identifierSetId, sets.relationshipSetId,
                                d.annotationId, d.disambiguationId, ColumnsFor(kind, d.fields).value)]
                  && r.value.revisionRows == store.revisionRows +
                       [RevisionRow(RevisionTable(kind), revisionId, gid, Some(store.nextId))])
  {
  }

  /** The rows an edition snapshot adds, in order: the release event and
      its link when there is a release date, then the language row, then
      the publisher row. */
  function EditionRows(dataId: int, f: V0Fields): seq<LinkRow>
    requires f.EditionV0?
  {
    var date := ConvertDate(f.releaseDate, f.releaseDatePrecision);
    (if f.releaseDate.Some? then [ReleaseEvent(dataId + 1, date.0, date.1, date.2), ReleaseEventOfEdition(dataId + 1, dataId)]
     else []) +
    (if f.languageId.Some? then [EditionLanguage(dataId, f.languageId.value)] else []) +
    (if f.publisherGid.Some? then [EditionPublisher(dataId, f.publisherGid.value)] else [])
  }

  lemma EditionRowsWritten(store: Store, gid: Gid, revisionId: int, d: V0Data, sets: SetIds)
    requires d.fields.EditionV0?
    ensures var r := DataAndRevisionInserted(store, Edition, gid, revisionId, Some(d), sets);
            r.Ok? && r.value.links == store.links + EditionRows(store.nextId, d.fields)
  {
  }

  /** The rows an edition snapshot adds: a release event, linked to the
      snapshot, exactly when it has a release date; a language row exactly
      when it has a language; a publisher row exactly when it has a
      publisher. */
  lemma EditionRowsFollowSnapshot(dataId: int, f: V0Fields)
    requires f.EditionV0?
    ensures var added := EditionRows(dataId, f);
            && ((exists e :: e in added && e.ReleaseEvent?) <==> f.releaseDate.Some?)
            && ((exists e :: e in added && e.ReleaseEventOfEdition? && e.dataId == dataId) <==> f.releaseDate.Some?)
            && (forall l :: EditionLanguage(dataId, l) in added <==> f.languageId == Some(l))
            && (forall p :: EditionPublisher(dataId, p) in added <==> f.publisherGid == Some(p))
  {
    var added := EditionRows(dataId, f);
    if f.releaseDate.Some? {
      assert added[0] in added && added[1] in added;
    }
  }

  /** A work snapshot adds one language row per language, in order. */
  lemma WorkRowsFollowSnapshot(store: Store, gid: Gid, revisionId: int, d: V0Data, sets: SetIds)
    requires d.fields.WorkV0?
    ensures var r := DataAndRevisionInserted(store, Work, gid, revisionId, Some(d), sets);
            && r.Ok?
            && |r.value.links| == |store.links| + |d.fields.languageIds|
            && r.value.links[..|store.links|] == store.links
            && forall i :: 0 <= i < |d.fields.languageIds| ==>
                 r.value.links[|store.links| + i] == WorkLanguage(store.nextId, d.fields.languageIds[i])
  {
  }

  // ---------------------------------------------------------------------
  // Order of the replay
  // ---------------------------------------------------------------------

  /** An entity's replay covers exactly its own revisions and the
      relationship revisions with an end at it, each as often as it is
      stored, in creation order. */
  lemma ReplayedRevisionsOfEntity(db: V0Db, entity: V0Entity)
    ensures var rs := SortByCreation(RevisionsFound(db.revisions, entity.gid));
            && Ordered(rs)
            && multiset(rs) == multiset(EntityRevisionsOf(db.revisions, entity.gid)) +
                               multiset(RelationshipRevisionsOf(db.revisions, entity.gid))
            && forall x :: x in rs <==>
                 x in db.revisions &&
                 ((x.V0EntityRevision? && x.entityGid == entity.gid) ||
                  (x.V0RelationshipRevision? && Involves(x.relData, entity.gid)))
  {
    var found := RevisionsFound(db.revisions, entity.gid);
    var rs := SortByCreation(found);
    forall x ensures x in rs <==> x in found {
      assert x in rs <==> x in multiset(rs);
      assert x in found <==> x in multiset(found);
    }
  }
}
