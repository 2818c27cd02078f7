/** The v0-to-v1 history replay: date conversion, paging through a query,
    and the per-entity replay that rebuilds alias, identifier and
    relationship sets revision by revision, writes a snapshot row and a
    revision row for each revision, moves the master revision and links
    each revision to the one before it.

    Each operation is a function over the `Store` (the specification) and,
    where the code loops, a method with that loop proved equal to it. */
module Migration {
  import opened PyValue
  import opened MigrationRows

  // ---------------------------------------------------------------------
  // convert_date
  // ---------------------------------------------------------------------

  /** `convert_date`: the (year, month, day) a date keeps at its precision;
      a date without a recognised precision keeps only its year. */
  function ConvertDate(date: Option<Date>, precision: Option<Precision>): (r: (Option<int>, Option<int>, Option<int>))
    ensures date.None? ==> r == (None, None, None)
    ensures date.Some? ==> r.0 == Some(date.value.year)
    ensures date.Some? ==> (r.1.Some? <==> precision == Some(Day) || precision == Some(Month))
    ensures date.Some? ==> (r.2.Some? <==> precision == Some(Day))
    ensures r.1.Some? ==> r.1.value == date.value.month
    ensures r.2.Some? ==> r.2.value == date.value.day
  {
    if date.None? then (None, None, None)
    else if precision == Some(Day) then (Some(date.value.year), Some(date.value.month), Some(date.value.day))
    else if precision == Some(Month) then (Some(date.value.year), Some(date.value.month), None)
    else (Some(date.value.year), None, None)
  }

  // ---------------------------------------------------------------------
  // limit_query
  // ---------------------------------------------------------------------

  /** The end of the page that starts at `offset`. */
  function PageEnd(size: nat, limit: nat, offset: nat): (e: nat)
    ensures e <= size
    ensures offset <= size ==> offset <= e
    ensures offset < size && limit > 0 ==> offset < e
  {
    if offset + limit <= size then offset + limit else size
  }

  /** `q.limit(limit).offset(offset).all()` over a result set in a fixed
      order: the rows from `offset` up to `limit` of them. */
  function Page<T>(rows: seq<T>, limit: nat, offset: nat): (r: seq<T>)
    ensures |r| <= limit
    ensures offset < |rows| ==> r == rows[offset..PageEnd(|rows|, limit, offset)]
    ensures offset >= |rows| ==> r == []
  {
    if offset >= |rows| then [] else rows[offset..PageEnd(|rows|, limit, offset)]
  }

  /** A non-empty page continues the rows before its offset up to the next
      page's offset. */
  lemma PageFollows<T>(rows: seq<T>, limit: nat, offset: nat)
    requires offset < |rows| && limit > 0
    ensures rows[..PageEnd(|rows|, 0, offset)] + Page(rows, limit, offset) == rows[..PageEnd(|rows|, 0, offset + limit)]
  {
    assert rows[..offset] + rows[offset..PageEnd(|rows|, limit, offset)] == rows[..PageEnd(|rows|, limit, offset)];
  }

  /** `limit_query`: fetch page after page, advancing the offset by
      `limit`, yield every row of each page in order, and stop at the first
      empty page. With a positive limit every row is yielded once, in
      order; with a zero limit the first page is empty and nothing is. */
  method LimitQuery<T>(rows: seq<T>, limit: nat) returns (yielded: seq<T>)
    ensures limit > 0 ==> yielded == rows
    ensures limit == 0 ==> yielded == []
  {
    var offset := 0;
    var results := Page(rows, limit, offset);
    yielded := [];
    while results != []
      invariant results == Page(rows, limit, offset)
      invariant limit == 0 ==> results == [] && offset == 0
      invariant yielded == rows[..PageEnd(|rows|, 0, offset)]
      decreases |rows| - offset
    {
      ghost var before := yielded;
      var k := 0;
      while k < |results|
        invariant 0 <= k <= |results|
        invariant yielded == before + results[..k]
      {
        yielded := yielded + [results[k]];
        k := k + 1;
      }
      assert results[..k] == results;
      PageFollows(rows, limit, offset);
      offset := offset + limit;
      results := Page(rows, limit, offset);
    }
    if limit > 0 {
      assert rows[..|rows|] == rows;
    }
  }

  // ---------------------------------------------------------------------
  // The revisions of an entity, in creation order
  // ---------------------------------------------------------------------

  /** `sorted(revisions, key=created_at)` for one more revision: it goes
      after every revision created no later than it. */
  function InsertByCreation(sorted: seq<V0Revision>, r: V0Revision): (s: seq<V0Revision>)
    ensures multiset(s) == multiset(sorted) + multiset{r}
    ensures Ordered(sorted) ==> Ordered(s)
  {
    if sorted == [] then [r]
    else
      var last := sorted[|sorted| - 1];
      if last.createdAt <= r.createdAt then
        assert Ordered(sorted) ==> Ordered(sorted + [r]) by {
          if Ordered(sorted) {
            OrderedAppendLate(sorted, r);
          }
        }
        sorted + [r]
      else
        var front := sorted[..|sorted| - 1];
        assert sorted == front + [last];
        var inserted := InsertByCreation(front, r);
        assert Ordered(sorted) ==> Ordered(inserted + [last]) by {
          if Ordered(sorted) {
            assert Ordered(front);
            OrderedInsertBefore(front, last, r, inserted);
          }
        }
        inserted + [last]
  }

  /** A revision created no earlier than the last of an ordered list can
      go at its end. */
  lemma OrderedAppendLate(sorted: seq<V0Revision>, r: V0Revision)
    requires Ordered(sorted) && sorted != []
    requires sorted[|sorted| - 1].createdAt <= r.createdAt
    ensures Ordered(sorted + [r])
  {
    forall y | y in sorted ensures y.createdAt <= r.createdAt {
      var i :| 0 <= i < |sorted| && sorted[i] == y;
    }
    OrderedSnoc(sorted, r);
  }

  /** Inserting a revision created before the last of an ordered list into
      the rest of it keeps that last revision at the end. */
  lemma OrderedInsertBefore(front: seq<V0Revision>, last: V0Revision, r: V0Revision, inserted: seq<V0Revision>)
    requires Ordered(front + [last]) && Ordered(inserted)
    requires r.createdAt < last.createdAt
    requires multiset(inserted) == multiset(front) + multiset{r}
    ensures Ordered(inserted + [last])
  {
    forall x | x in inserted ensures x.createdAt <= last.createdAt {
      assert x in multiset(inserted);
      if x != r {
        assert x in multiset(front);
        var i :| 0 <= i < |front| && front[i] == x;
        assert (front + [last])[i] == x;
        assert (front + [last])[|front|] == last;
      }
    }
    OrderedSnoc(inserted, last);
  }

  /** An ordered list stays ordered when a revision created no earlier
      than any of its members is appended. */
  lemma OrderedSnoc(rs: seq<V0Revision>, x: V0Revision)
    requires Ordered(rs)
    requires forall y :: y in rs ==> y.createdAt <= x.createdAt
    ensures Ordered(rs + [x])
  {
    forall i, j | 0 <= i < j < |rs + [x]| ensures (rs + [x])[i].createdAt <= (rs + [x])[j].createdAt {
      assert (rs + [x])[i] == rs[i];
      if j == |rs| {
        assert rs[i] in rs;
      } else {
        assert (rs + [x])[j] == rs[j];
      }
    }
  }

  /** The revisions are in creation order. */
  predicate Ordered(rs: seq<V0Revision>)
  {
    forall i, j :: 0 <= i < j < |rs| ==> rs[i].createdAt <= rs[j].createdAt
  }

  /** `sorted(revisions, key=lambda x: x.created_at)`: the same revisions,
      in creation order. */
  function SortByCreation(rs: seq<V0Revision>): (s: seq<V0Revision>)
    ensures multiset(s) == multiset(rs)
    ensures Ordered(s)
  {
    if rs == [] then []
    else
      assert rs == rs[..|rs| - 1] + [rs[|rs| - 1]];
      InsertByCreation(SortByCreation(rs[..|rs| - 1]), rs[|rs| - 1])
  }

  /** The relationship has an end at the entity. */
  predicate Involves(rel: V0RelData, gid: Gid)
  {
    exists e :: e in rel.entities && e.entityGid == gid
  }

  /** The revisions the two per-entity queries return: the entity's own
      revisions, then the relationship revisions with an end at it. */
  function RevisionsFound(revisions: seq<V0Revision>, gid: Gid): (r: seq<V0Revision>)
    ensures forall x :: x in r ==> x in revisions
  {
    EntityRevisionsOf(revisions, gid) + RelationshipRevisionsOf(revisions, gid)
  }

  function EntityRevisionsOf(revisions: seq<V0Revision>, gid: Gid): (r: seq<V0Revision>)
    ensures forall x :: x in r <==> x in revisions && x.V0EntityRevision? && x.entityGid == gid
  {
    if revisions == [] then []
    else
      var last := revisions[|revisions| - 1];
      assert revisions == revisions[..|revisions| - 1] + [last];
      EntityRevisionsOf(revisions[..|revisions| - 1], gid) +
      (if last.V0EntityRevision? && last.entityGid == gid then [last] else [])
  }

  function RelationshipRevisionsOf(revisions: seq<V0Revision>, gid: Gid): (r: seq<V0Revision>)
    ensures forall x :: x in r <==> x in revisions && x.V0RelationshipRevision? && Involves(x.relData, gid)
  {
    if revisions == [] then []
    else
      var last := revisions[|revisions| - 1];
      assert revisions == revisions[..|revisions| - 1] + [last];
      RelationshipRevisionsOf(revisions[..|revisions| - 1], gid) +
      (if last.V0RelationshipRevision? && Involves(last.relData, gid) then [last] else [])
  }

  // ---------------------------------------------------------------------
  // Writing sets
  // ---------------------------------------------------------------------

  /** The three shared empty sets created before the replay. */
  datatype EmptySets = EmptySets(relationshipSet: int, aliasSet: int, identifierSet: int)

  /** `INSERT ... DEFAULT VALUES RETURNING id` for the three empty sets. */
  function EmptySetsCreated(store: Store): (Store, EmptySets)
  {
    var relId, aliasId, identId := store.nextId, store.nextId + 1, store.nextId + 2;
    (store.(nextId := store.nextId + 3,
            relationshipSets := store.relationshipSets + [SetRow(relId, None)],
            aliasSets := store.aliasSets + [SetRow(aliasId, None)],
            identifierSets := store.identifierSets + [SetRow(identId, None)]),
     EmptySets(relId, aliasId, identId))
  }

  /** A new alias set with its default alias and one membership row per
      alias; returns the new set's id. */
  function AliasSetCreated(store: Store, defaultAliasId: Option<int>, aliasIds: seq<int>): (Store, int)
  {
    var setId := store.nextId;
    (store.(nextId := setId + 1, aliasSets := store.aliasSets + [SetRow(setId, defaultAliasId)],
            aliasSetMembers := store.aliasSetMembers + MemberRows(setId, aliasIds)),
     setId)
  }

  /** The alias-set insert and its loop over the aliases. */
  method InsertAliasSet(store: Store, defaultAliasId: Option<int>, aliasIds: seq<int>) returns (s: Store, setId: int)
    ensures (s, setId) == AliasSetCreated(store, defaultAliasId, aliasIds)
  {
    setId := store.nextId;
    s := store.(nextId := setId + 1, aliasSets := store.aliasSets + [SetRow(setId, defaultAliasId)]);
    for i := 0 to |aliasIds|
      invariant s == store.(nextId := setId + 1, aliasSets := store.aliasSets + [SetRow(setId, defaultAliasId)],
                            aliasSetMembers := store.aliasSetMembers + MemberRows(setId, aliasIds[..i]))
    {
      assert MemberRows(setId, aliasIds[..i + 1]) == MemberRows(setId, aliasIds[..i]) + [MemberRow(setId, aliasIds[i])];
      s := s.(aliasSetMembers := s.aliasSetMembers + [MemberRow(setId, aliasIds[i])]);
    }
    assert aliasIds[..|aliasIds|] == aliasIds;
  }

  /** A new identifier set with one membership row per identifier. */
  function IdentifierSetCreated(store: Store, identifierIds: seq<int>): (Store, int)
  {
    var setId := store.nextId;
    (store.(nextId := setId + 1, identifierSets := store.identifierSets + [SetRow(setId, None)],
            identifierSetMembers := store.identifierSetMembers + MemberRows(setId, identifierIds)),
     setId)
  }

  /** The identifier-set insert and its loop over the identifiers. */
  method InsertIdentifierSet(store: Store, identifierIds: seq<int>) returns (s: Store, setId: int)
    ensures (s, setId) == IdentifierSetCreated(store, identifierIds)
  {
    setId := store.nextId;
    s := store.(nextId := setId + 1, identifierSets := store.identifierSets + [SetRow(setId, None)]);
    for i := 0 to |identifierIds|
      invariant s == store.(nextId := setId + 1, identifierSets := store.identifierSets + [SetRow(setId, None)],
                            identifierSetMembers := store.identifierSetMembers + MemberRows(setId, identifierIds[..i]))
    {
      assert MemberRows(setId, identifierIds[..i + 1]) ==
             MemberRows(setId, identifierIds[..i]) + [MemberRow(setId, identifierIds[i])];
      s := s.(identifierSetMembers := s.identifierSetMembers + [MemberRow(setId, identifierIds[i])]);
    }
    assert identifierIds[..|identifierIds|] == identifierIds;
  }

  // ---------------------------------------------------------------------
  // The replay state and the two kinds of step
  // ---------------------------------------------------------------------

  /** The variables the replay keeps for the entity being migrated. */
  datatype ReplayState = ReplayState(relationshipSetId: int, aliases: seq<int>, aliasSetId: int,
                                     identifiers: seq<int>, identifierSetId: int, data: Option<V0Data>,
                                     previous: Option<int>)

  function InitialState(empty: EmptySets): ReplayState
  {
    ReplayState(empty.relationshipSet, [], empty.aliasSet, [], empty.identifierSet, None, None)
  }

  /** An entity revision: when it has a snapshot, its aliases get a new
      alias set (or the shared empty one when it has none) and likewise its
      identifiers; then the current snapshot becomes the revision's, null
      or not. */
  function EntityRevisionStep(st: ReplayState, store: Store, empty: EmptySets, data: Option<V0Data>)
    : (r: (ReplayState, Store))
    ensures r.0.data == data && r.0.relationshipSetId == st.relationshipSetId && r.0.previous == st.previous
    ensures data.None? ==> r == (st.(data := None), store)
    ensures data.Some? && data.value.aliasIds == [] ==> r.0.aliasSetId == empty.aliasSet
    ensures data.Some? && data.value.identifierIds == [] ==> r.0.identifierSetId == empty.identifierSet
    ensures r.1.relationshipSetMembers == store.relationshipSetMembers && r.1.relationships == store.relationships
    ensures store.nextId <= r.1.nextId
  {
    if data.None? then (st.(data := None), store)
    else
      var d := data.value;
      var withAliases := if d.aliasIds != [] then AliasSetCreated(store, d.defaultAliasId, d.aliasIds)
                         else (store, empty.aliasSet);
      var withIdentifiers := if d.identifierIds != [] then IdentifierSetCreated(withAliases.0, d.identifierIds)
                             else (withAliases.0, empty.identifierSet);
      (st.(aliases := d.aliasIds, identifiers := d.identifierIds, aliasSetId := withAliases.1,
           identifierSetId := withIdentifiers.1, data := data),
       withIdentifiers.0)
  }

  /** `[e for e in entities if e.position == p][0]`. */
  function EndAt(entities: seq<V0RelEntity>, position: int): (r: Result<V0RelEntity>)
    ensures r.Ok? <==> exists e :: e in entities && e.position == position
    ensures r.Ok? ==> r.value in entities && r.value.position == position
  {
    if entities == [] then Err(IndexError("list index out of range"))
    else if entities[0].position == position then Ok(entities[0])
    else
      var rest := EndAt(entities[1..], position);
      assert forall e :: e in entities[1..] ==> e in entities;
      assert forall e :: e in entities && e != entities[0] ==> e in entities[1..];
      rest
  }

  /** `SELECT id FROM relationship WHERE id = :id` found a row. */
  predicate RelationshipExists(store: Store, id: int)
  {
    exists row :: row in store.relationships && row.id == id
  }

  /** A relationship revision: find the relationship's source and target,
      insert the relationship unless a row with its id exists, then create
      a new relationship set holding the previous set's relationships and
      the new one, and make it current. */
  function RelationshipRevisionStep(st: ReplayState, store: Store, rel: V0RelData): (r: Result<(ReplayState, Store)>)
    ensures r.Ok? ==> r.value.0 == st.(relationshipSetId := store.nextId)
    ensures r.Ok? ==> r.value.1.nextId == store.nextId + 1
    ensures r.Ok? ==> r.value.1.headers == store.headers && r.value.1.revisionParents == store.revisionParents
  {
    var source :- EndAt(rel.entities, 0);
    var target :- EndAt(rel.entities, 1);
    var withRelationship :=
      if RelationshipExists(store, rel.relationshipDataId) then store
      else store.(relationships := store.relationships +
                    [RelationshipRow(rel.relationshipDataId, rel.relationshipTypeId, source.entityGid, target.entityGid)]);
    var newSetId := withRelationship.nextId;
    var withSet := withRelationship.(nextId := newSetId + 1,
                                     relationshipSets := withRelationship.relationshipSets + [SetRow(newSetId, None)]);
    // The current set id is never None here: it starts as the shared empty set.
    var copied := MemberRows(newSetId, Members(withSet.relationshipSetMembers, st.relationshipSetId));
    var withMembers := withSet.(relationshipSetMembers := withSet.relationshipSetMembers + copied +
                                                           [MemberRow(newSetId, rel.relationshipDataId)]);
    Ok((st.(relationshipSetId := newSetId), withMembers))
  }

  // ---------------------------------------------------------------------
  // Snapshot and revision rows
  // ---------------------------------------------------------------------

  /** The set ids a snapshot row refers to. */
  datatype SetIds = SetIds(aliasSetId: int, identifierSetId: int, relationshipSetId: int)

  /** The `*_revision` table of each kind the replay dispatches on. */
  function RevisionTable(kind: EntityKind): string
  {
    match kind
    case Creator => "_bookbrainz.creator_revision"
    case Edition => "_bookbrainz.edition_revision"
    case Work => "_bookbrainz.work_revision"
    case Publisher => "_bookbrainz.publisher_revision"
    case Publication => "_bookbrainz.publication_revision"
    case OtherKind => ""
  }

  /** The columns of the snapshot row for a kind; reading an attribute the
      snapshot's class lacks raises. */
  function ColumnsFor(kind: EntityKind, fields: V0Fields): (r: Result<DataColumns>)
    ensures r.Ok? <==> match kind
                       case Creator => fields.CreatorV0?
                       case Edition => fields.EditionV0?
                       case Work => fields.WorkV0?
                       case Publisher => fields.PublisherV0?
                       case Publication => fields.PublicationV0?
                       case OtherKind => false
  {
    match (kind, fields)
    case (Creator, CreatorV0(bd, bdp, ed, edp, ended, gender, ctype)) =>
      var b := ConvertDate(bd, bdp);
      var e := ConvertDate(ed, edp);
      Ok(CreatorColumns(b.0, b.1, b.2, e.0, e.1, e.2, ended, gender, ctype))
    case (Edition, EditionV0(publication, width, height, depth, weight, pages, format, status, _, _, _, _)) =>
      Ok(EditionColumns(publication, width, height, depth, weight, pages, format, status))
    case (Work, WorkV0(wtype, _)) =>
      Ok(WorkColumns(wtype))
    case (Publisher, PublisherV0(bd, bdp, ed, edp, ended, ptype)) =>
      var b := ConvertDate(bd, bdp);
      var e := ConvertDate(ed, edp);
      Ok(PublisherColumns(b.0, b.1, b.2, e.0, e.1, e.2, ended, ptype))
    case (Publication, PublicationV0(ptype)) =>
      Ok(PublicationColumns(ptype))
    case _ =>
      Err(AttributeError("snapshot attribute of another kind"))
  }

  /** The rows an edition's snapshot row gets: a release event when it has
      a release date, a language row when it has a language, a publisher
      row when it has a publisher. */
  function EditionLinksWritten(store: Store, dataId: int, fields: V0Fields): (s: Store)
    requires fields.EditionV0?
  {
    var withEvent :=
      if fields.releaseDate.Some? then
        var date := ConvertDate(fields.releaseDate, fields.releaseDatePrecision);
        var eventId := store.nextId;
        store.(nextId := eventId + 1,
               links := store.links + [ReleaseEvent(eventId, date.0, date.1, date.2), ReleaseEventOfEdition(eventId, dataId)])
      else store;
    var withLanguage :=
      if fields.languageId.Some? then withEvent.(links := withEvent.links + [EditionLanguage(dataId, fields.languageId.value)])
      else withEvent;
    if fields.publisherGid.Some? then withLanguage.(links := withLanguage.links + [EditionPublisher(dataId, fields.publisherGid.value)])
    else withLanguage
  }

  /** One language row per language of a work's snapshot. */
  function WorkLanguageRows(dataId: int, languageIds: seq<int>): (r: seq<LinkRow>)
    ensures |r| == |languageIds|
    ensures forall i :: 0 <= i < |languageIds| ==> r[i] == WorkLanguage(dataId, languageIds[i])
  {
    seq(|languageIds|, i requires 0 <= i < |languageIds| => WorkLanguage(dataId, languageIds[i]))
  }

  /** The rows that hang off a new snapshot row of the given kind. */
  function LinksWritten(store: Store, dataId: int, fields: V0Fields): Store
  {
    match fields
    case EditionV0(_, _, _, _, _, _, _, _, _, _, _, _) => EditionLinksWritten(store, dataId, fields)
    case WorkV0(_, languageIds) => store.(links := store.links + WorkLanguageRows(dataId, languageIds))
    case _ => store
  }

  /** `insert_*_data_and_revision`: a snapshot row (and the rows hanging
      off it) only when there is a snapshot, then always a revision row
      pointing at it, or at nothing. */
  function DataAndRevisionInserted(store: Store, kind: EntityKind, gid: Gid, revisionId: int, data: Option<V0Data>,
                                   sets: SetIds): (r: Result<Store>)
    requires kind != OtherKind
    ensures r.Ok? ==> && r.value.aliasSetMembers == store.aliasSetMembers
                      && r.value.identifierSetMembers == store.identifierSetMembers
                      && r.value.relationshipSetMembers == store.relationshipSetMembers
                      && r.value.headers == store.headers && r.value.revisionParents == store.revisionParents
                      && store.nextId <= r.value.nextId
  {
    if data.None? then
      Ok(store.(revisionRows := store.revisionRows + [RevisionRow(RevisionTable(kind), revisionId, gid, None)]))
    else
      var d := data.value;
      var columns :- ColumnsFor(kind, d.fields);
      var dataId := store.nextId;
      var withRow := store.(nextId := dataId + 1,
                            dataRows := store.dataRows + [DataRow(dataId, sets.aliasSetId, sets.identifierSetId,
                                                                  sets.relationshipSetId, d.annotationId,
                                                                  d.disambiguationId, columns)]);
      var withLinks := LinksWritten(withRow, dataId, d.fields);
      Ok(withLinks.(revisionRows := withLinks.revisionRows + [RevisionRow(RevisionTable(kind), revisionId, gid, Some(dataId))]))
  }

  /** The insert, with the loop over a work's languages. */
  method InsertDataAndRevision(store: Store, kind: EntityKind, gid: Gid, revisionId: int, data: Option<V0Data>,
                               sets: SetIds) returns (r: Result<Store>)
    requires kind != OtherKind
    ensures r == DataAndRevisionInserted(store, kind, gid, revisionId, data, sets)
  {
    if data.None? {
      return Ok(store.(revisionRows := store.revisionRows + [RevisionRow(RevisionTable(kind), revisionId, gid, None)]));
    }
    var d := data.value;
    var columns :- ColumnsFor(kind, d.fields);
    var dataId := store.nextId;
    var s := store.(nextId := dataId + 1,
                    dataRows := store.dataRows + [DataRow(dataId, sets.aliasSetId, sets.identifierSetId,
                                                          sets.relationshipSetId, d.annotationId,
                                                          d.disambiguationId, columns)]);
    ghost var withRow := s;
    if d.fields.WorkV0? {
      var languageIds := d.fields.languageIds;
      for i := 0 to |languageIds|
        invariant s == withRow.(links := withRow.links + WorkLanguageRows(dataId, languageIds[..i]))
      {
        assert WorkLanguageRows(dataId, languageIds[..i + 1]) ==
               WorkLanguageRows(dataId, languageIds[..i]) + [WorkLanguage(dataId, languageIds[i])];
        s := s.(links := s.links + [WorkLanguage(dataId, languageIds[i])]);
      }
      assert languageIds[..|languageIds|] == languageIds;
    } else {
      s := LinksWritten(s, dataId, d.fields);
    }
    r := Ok(s.(revisionRows := s.revisionRows + [RevisionRow(RevisionTable(kind), revisionId, gid, Some(dataId))]));
  }

  /** ASCII lower case, as `str.lower` does on the kind names. */
  function Lower(s: string): (r: string)
    ensures |r| == |s|
  {
    seq(|s|, i requires 0 <= i < |s| => LowerChar(s[i]))
  }

  /** One character in ASCII lower case. */
  function LowerChar(c: char): char
  {
    if 'A' <= c <= 'Z' then c - 'A' + 'a' else c
  }

  /** The kind name the dispatch passes to `set_master_revision`. */
  function KindName(kind: EntityKind): string
  {
    match kind
    case Creator => "Creator"
    case Edition => "Edition"
    case Work => "Work"
    case Publisher => "Publisher"
    case Publication => "Publication"
    case OtherKind => ""
  }

  /** `set_master_revision`'s table: `_bookbrainz.<type lowercased>_header`. */
  function HeaderTable(entityType: string): string
  {
    "_bookbrainz." + Lower(entityType) + "_header"
  }

  /** `UPDATE <header> SET master_revision_id = :revision_id WHERE bbid = :bbid`:
      changes the header row when there is one. */
  function MasterRevisionSet(store: Store, entityType: string, gid: Gid, revisionId: int): (s: Store)
    ensures s.headers.Keys == store.headers.Keys
    ensures (HeaderTable(entityType), gid) in store.headers ==> s.headers[(HeaderTable(entityType), gid)] == Some(revisionId)
    ensures forall k :: k in store.headers && k != (HeaderTable(entityType), gid) ==> s.headers[k] == store.headers[k]
    ensures s == store.(headers := s.headers)
  {
    var key := (HeaderTable(entityType), gid);
    if key in store.headers then store.(headers := store.headers[key := Some(revisionId)]) else store
  }

  // ---------------------------------------------------------------------
  // One revision, one entity, all entities
  // ---------------------------------------------------------------------

  /** The state that outlives an entity: the store and the parent pairs
      already written. */
  datatype Progress = Progress(store: Store, processed: seq<(int, int)>)

  /** The parent link from the previous revision of the entity, written
      unless the same pair was written before. */
  function ParentLinked(progress: Progress, previous: Option<int>, revisionId: int): (p: Progress)
    ensures previous.None? ==> p == progress
    ensures previous.Some? ==>
              var pair := (previous.value, revisionId);
              p == if pair in progress.processed then progress
                   else Progress(progress.store.(revisionParents := progress.store.revisionParents + [pair]),
                                 progress.processed + [pair])
  {
    if previous.None? then progress
    else
      var pair := (previous.value, revisionId);
      if pair in progress.processed then progress
      else Progress(progress.store.(revisionParents := progress.store.revisionParents + [pair]),
                    progress.processed + [pair])
  }

  /** The set bookkeeping of one revision, by its kind. */
  function SetsStep(st: ReplayState, store: Store, empty: EmptySets, revision: V0Revision)
    : (r: Result<(ReplayState, Store)>)
    ensures r.Ok? ==> r.value.0.previous == st.previous
    ensures r.Ok? ==> r.value.0.data == if revision.V0EntityRevision? then revision.data else st.data
    ensures r.Ok? ==> store.nextId <= r.value.1.nextId
    ensures r.Ok? ==> r.value.1.headers == store.headers && r.value.1.revisionParents == store.revisionParents
  {
    if revision.V0EntityRevision? then Ok(EntityRevisionStep(st, store, empty, revision.data))
    else RelationshipRevisionStep(st, store, revision.relData)
  }

  /** One revision of `entity`: the set bookkeeping of its kind of revision,
      the snapshot and revision rows, the master revision, the parent link. */
  function RevisionStep(st: ReplayState, progress: Progress, empty: EmptySets, entity: V0Entity,
                        revision: V0Revision): (r: Result<(ReplayState, Progress)>)
    ensures entity.kind == OtherKind ==> r.Err?
    ensures r.Ok? ==> r.value.0.previous == Some(revision.revisionId)
  {
    var after :- SetsStep(st, progress.store, empty, revision);
    if entity.kind == OtherKind then Err(Raised("Err... what?"))
    else
      var st1 := after.0;
      var withRows :- DataAndRevisionInserted(after.1, entity.kind, entity.gid, revision.revisionId, st1.data,
                                              SetIds(st1.aliasSetId, st1.identifierSetId, st1.relationshipSetId));
      var withMaster := MasterRevisionSet(withRows, KindName(entity.kind), entity.gid, revision.revisionId);
      Ok((st1.(previous := Some(revision.revisionId)),
          ParentLinked(progress.(store := withMaster), st1.previous, revision.revisionId)))
  }

  /** The replay of `revisions`, in the given order, from a fresh state. */
  function Replay(entity: V0Entity, revisions: seq<V0Revision>, empty: EmptySets, progress: Progress)
    : Result<(ReplayState, Progress)>
  {
    if revisions == [] then Ok((InitialState(empty), progress))
    else
      var before :- Replay(entity, revisions[..|revisions| - 1], empty, progress);
      RevisionStep(before.0, before.1, empty, entity, revisions[|revisions| - 1])
  }

  /** One revision step, with the alias and identifier loops. */
  method ApplyRevision(st: ReplayState, progress: Progress, empty: EmptySets, entity: V0Entity, revision: V0Revision)
    returns (r: Result<(ReplayState, Progress)>)
    ensures r == RevisionStep(st, progress, empty, entity, revision)
  {
    var state, store := st, progress.store;
    if revision.V0EntityRevision? {
      if revision.data.Some? {
        var d := revision.data.value;
        state := state.(aliases := d.aliasIds, identifiers := d.identifierIds);
        if d.aliasIds != [] {
          var setId;
          store, setId := InsertAliasSet(store, d.defaultAliasId, d.aliasIds);
          state := state.(aliasSetId := setId);
        } else {
          state := state.(aliasSetId := empty.aliasSet);
        }
        if d.identifierIds != [] {
          var setId;
          store, setId := InsertIdentifierSet(store, d.identifierIds);
          state := state.(identifierSetId := setId);
        } else {
          state := state.(identifierSetId := empty.identifierSet);
        }
      }
      state := state.(data := revision.data);
      assert Ok((state, store)) == SetsStep(st, progress.store, empty, revision);
    } else {
      var after :- SetsStep(state, store, empty, revision);
      state, store := after.0, after.1;
    }
    if entity.kind == OtherKind {
      return Err(Raised("Err... what?"));
    }
    store :- InsertDataAndRevision(store, entity.kind, entity.gid, revision.revisionId, state.data,
                                   SetIds(state.aliasSetId, state.identifierSetId, state.relationshipSetId));
    store := MasterRevisionSet(store, KindName(entity.kind), entity.gid, revision.revisionId);
    var next := Progress(store, progress.processed);
    if state.previous.Some? {
      var pair := (state.previous.value, revision.revisionId);
      if pair !in next.processed {
        next := Progress(next.store.(revisionParents := next.store.revisionParents + [pair]), next.processed + [pair]);
      }
    }
    r := Ok((state.(previous := Some(revision.revisionId)), next));
  }

  /** The replay of one entity's revisions, in the order given. */
  method ReplayEntity(entity: V0Entity, revisions: seq<V0Revision>, empty: EmptySets, progress: Progress)
    returns (r: Result<(ReplayState, Progress)>)
    ensures r == Replay(entity, revisions, empty, progress)
  {
    var state := InitialState(empty);
    var current := progress;
    for i := 0 to |revisions|
      invariant Replay(entity, revisions[..i], empty, progress) == Ok((state, current))
    {
      assert revisions[..i + 1][..i] == revisions[..i];
      var next := ApplyRevision(state, current, empty, entity, revisions[i]);
      if next.Err? {
        ReplayFailurePersists(entity, revisions, empty, progress, i + 1);
        return next;
      }
      state, current := next.value.0, next.value.1;
    }
    assert revisions[..|revisions|] == revisions;
    r := Ok((state, current));
  }

  /** A failed revision ends the replay of its entity with that failure. */
  lemma {:induction false} ReplayFailurePersists(entity: V0Entity, revisions: seq<V0Revision>, empty: EmptySets,
                                                 progress: Progress, i: nat)
    requires i <= |revisions|
    requires Replay(entity, revisions[..i], empty, progress).Err?
    ensures Replay(entity, revisions, empty, progress) == Replay(entity, revisions[..i], empty, progress)
    decreases |revisions| - i
  {
    if i < |revisions| {
      assert revisions[..i + 1][..i] == revisions[..i];
      ReplayFailurePersists(entity, revisions, empty, progress, i + 1);
    } else {
      assert revisions[..i] == revisions;
    }
  }

  /** One entity of the migration: its revisions, found by the two queries
      and put in creation order, replayed from a fresh state. */
  function EntityMigrated(db: V0Db, entity: V0Entity, empty: EmptySets, progress: Progress): Result<Progress>
  {
    var replayed :- Replay(entity, SortByCreation(RevisionsFound(db.revisions, entity.gid)), empty, progress);
    Ok(replayed.1)
  }

  /** The migration of the given entities, one after the other; parent
      pairs are remembered across entities. */
  function MigrateEntities(db: V0Db, entities: seq<V0Entity>, empty: EmptySets, progress: Progress): Result<Progress>
  {
    if entities == [] then Ok(progress)
    else
      var before :- MigrateEntities(db, entities[..|entities| - 1], empty, progress);
      EntityMigrated(db, entities[|entities| - 1], empty, before)
  }

  /** A failed entity ends the migration with that failure. */
  lemma {:induction false} MigrationFailurePersists(db: V0Db, entities: seq<V0Entity>, empty: EmptySets,
                                                    progress: Progress, i: nat)
    requires i <= |entities|
    requires MigrateEntities(db, entities[..i], empty, progress).Err?
    ensures MigrateEntities(db, entities, empty, progress) == MigrateEntities(db, entities[..i], empty, progress)
    decreases |entities| - i
  {
    if i < |entities| {
      assert entities[..i + 1][..i] == entities[..i];
      MigrationFailurePersists(db, entities, empty, progress, i + 1);
    } else {
      assert entities[..i] == entities;
    }
  }

  /** One more entity migrates from where the entities before it left off. */
  lemma {:induction false} MigrateEntitiesSnoc(db: V0Db, entities: seq<V0Entity>, empty: EmptySets, start: Progress,
                                               i: nat, progress: Progress)
    requires i < |entities|
    requires MigrateEntities(db, entities[..i], empty, start) == Ok(progress)
    ensures MigrateEntities(db, entities[..i + 1], empty, start) == EntityMigrated(db, entities[i], empty, progress)
  {
    assert entities[..i + 1][..i] == entities[..i];
  }

  /** `migrate_entity_data` from the shared empty sets on: every entity, paged
      a hundred at a time, replays its revisions in creation order. */
  function Migrated(db: V0Db, store: Store): Result<Progress>
  {
    var created := EmptySetsCreated(store);
    MigrateEntities(db, db.entities, created.1, Progress(created.0, []))
  }

  /** One entity's replay, with its loops. */
  method MigrateEntity(db: V0Db, entity: V0Entity, empty: EmptySets, progress: Progress) returns (r: Result<Progress>)
    ensures r == EntityMigrated(db, entity, empty, progress)
  {
    var revisions := SortByCreation(RevisionsFound(db.revisions, entity.gid));
    var replayed :- ReplayEntity(entity, revisions, empty, progress);
    r := Ok(replayed.1);
  }

  /** `migrate_entity_data`: the entity loop over the paged query. */
  method MigrateEntityData(db: V0Db, store: Store) returns (r: Result<Progress>)
    ensures r == Migrated(db, store)
  {
    var created := EmptySetsCreated(store);
    var empty := created.1;
    var start := Progress(created.0, []);
    var progress := start;
    var entities := LimitQuery(db.entities, 100);
    for i := 0 to |entities|
      invariant MigrateEntities(db, entities[..i], empty, start) == Ok(progress)
    {
      var next := MigrateEntity(db, entities[i], empty, progress);
      MigrateEntitiesSnoc(db, entities, empty, start, i, progress);
      if next.Err? {
        MigrationFailurePersists(db, entities, empty, start, i + 1);
        return next;
      }
      progress := next.value;
    }
    assert entities[..|entities|] == entities;
    r := Ok(progress);
  }
}
