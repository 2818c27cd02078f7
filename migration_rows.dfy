/** The rows the v0-to-v1 migration reads and writes.

    The v0 rows are described by the attributes the migration reads from
    them (an edition's width, pages and publisher, for instance), which
    belong to a later v0 schema than the snapshot classes of this model.
    The v1 tables the migration writes are an append-only `Store`: each
    INSERT appends a row, each `RETURNING id` takes the next unused id, and
    the master-revision UPDATE changes one header row. */
module MigrationRows {
  import opened PyValue

  /** An entity's BBID. */
  type Gid = string

  /** The `date_precision` enum. */
  datatype Precision = Year | Month | Day

  /** The kind-specific attributes of a v0 snapshot. */
  datatype V0Fields =
    | CreatorV0(beginDate: Option<Date>, beginDatePrecision: Option<Precision>, endDate: Option<Date>,
                endDatePrecision: Option<Precision>, ended: Option<bool>, genderId: Option<int>,
                creatorTypeId: Option<int>)
    | EditionV0(publicationGid: Option<Gid>, width: Option<int>, height: Option<int>, depth: Option<int>,
                weight: Option<int>, pages: Option<int>, editionFormatId: Option<int>, editionStatusId: Option<int>,
                releaseDate: Option<Date>, releaseDatePrecision: Option<Precision>, languageId: Option<int>,
                publisherGid: Option<Gid>)
    | WorkV0(workTypeId: Option<int>, languageIds: seq<int>)
    | PublisherV0(beginDate: Option<Date>, beginDatePrecision: Option<Precision>, endDate: Option<Date>,
                  endDatePrecision: Option<Precision>, ended: Option<bool>, publisherTypeId: Option<int>)
    | PublicationV0(publicationTypeId: Option<int>)

  /** A v0 snapshot: its annotation and disambiguation ids, the ids of its
      aliases, default alias and identifiers, and its kind's attributes. */
  datatype V0Data = V0Data(annotationId: Option<int>, disambiguationId: Option<int>, aliasIds: seq<int>,
                           defaultAliasId: Option<int>, identifierIds: seq<int>, fields: V0Fields)

  /** One end of a v0 relationship: position 0 is the source, 1 the target. */
  datatype V0RelEntity = V0RelEntity(entityGid: Gid, position: int)

  datatype V0RelData = V0RelData(relationshipDataId: int, relationshipTypeId: int, entities: seq<V0RelEntity>)

  /** A v0 revision: an entity revision (whose snapshot may be null) or a
      relationship revision. Creation times are opaque, ordered instants. */
  datatype V0Revision =
    | V0EntityRevision(revisionId: int, createdAt: int, entityGid: Gid, data: Option<V0Data>)
    | V0RelationshipRevision(revisionId: int, createdAt: int, relData: V0RelData)

  /** The class of a v0 entity; `OtherKind` stands for any class the
      migration does not dispatch on. */
  datatype EntityKind = Creator | Edition | Work | Publisher | Publication | OtherKind

  datatype V0Entity = V0Entity(gid: Gid, kind: EntityKind)

  /** The v0 tables the replay reads. */
  datatype V0Db = V0Db(entities: seq<V0Entity>, revisions: seq<V0Revision>)

  /** The columns of a v1 snapshot row, per kind. */
  datatype DataColumns =
    | CreatorColumns(beginYear: Option<int>, beginMonth: Option<int>, beginDay: Option<int>, endYear: Option<int>,
                     endMonth: Option<int>, endDay: Option<int>, ended: Option<bool>, genderId: Option<int>,
                     typeId: Option<int>)
    | EditionColumns(publicationBbid: Option<Gid>, width: Option<int>, height: Option<int>, depth: Option<int>,
                     weight: Option<int>, pages: Option<int>, formatId: Option<int>, statusId: Option<int>)
    | WorkColumns(typeId: Option<int>)
    | PublisherColumns(beginYear: Option<int>, beginMonth: Option<int>, beginDay: Option<int>, endYear: Option<int>,
                       endMonth: Option<int>, endDay: Option<int>, ended: Option<bool>, typeId: Option<int>)
    | PublicationColumns(typeId: Option<int>)

  /** A row of one of the v1 `*_data` tables. */
  datatype DataRow = DataRow(id: int, aliasSetId: int, identifierSetId: int, relationshipSetId: int,
                             annotationId: Option<int>, disambiguationId: Option<int>, columns: DataColumns)

  /** The rows that hang off a snapshot row. */
  datatype LinkRow =
    | ReleaseEvent(id: int, year: Option<int>, month: Option<int>, day: Option<int>)
    | ReleaseEventOfEdition(eventId: int, dataId: int)
    | EditionLanguage(dataId: int, languageId: int)
    | EditionPublisher(dataId: int, publisherBbid: Gid)
    | WorkLanguage(dataId: int, languageId: int)

  /** A row of a v1 `*_revision` table. */
  datatype RevisionRow = RevisionRow(table: string, id: int, bbid: Gid, dataId: Option<int>)

  datatype RelationshipRow = RelationshipRow(id: int, typeId: int, sourceBbid: Gid, targetBbid: Gid)

  /** A set row with its default alias (alias sets only). */
  datatype SetRow = SetRow(id: int, defaultAliasId: Option<int>)

  /** A membership row: (set id, member id). */
  datatype MemberRow = MemberRow(setId: int, memberId: int)

  /** The v1 tables the replay writes. `headers` maps (header table, bbid)
      to the header row's master revision. */
  datatype Store = Store(
    nextId: int,
    aliasSets: seq<SetRow>, aliasSetMembers: seq<MemberRow>,
    identifierSets: seq<SetRow>, identifierSetMembers: seq<MemberRow>,
    relationshipSets: seq<SetRow>, relationshipSetMembers: seq<MemberRow>,
    relationships: seq<RelationshipRow>,
    dataRows: seq<DataRow>, links: seq<LinkRow>, revisionRows: seq<RevisionRow>,
    headers: map<(string, Gid), Option<int>>,
    revisionParents: seq<(int, int)>)

  /** Every membership row refers to a set id already handed out, so the
      next id names a set with no members yet. */
  predicate Valid(store: Store)
  {
    && (forall m :: m in store.aliasSetMembers ==> m.setId < store.nextId)
    && (forall m :: m in store.identifierSetMembers ==> m.setId < store.nextId)
    && (forall m :: m in store.relationshipSetMembers ==> m.setId < store.nextId)
  }

  /** The members of set `setId`, in the order their rows were written. */
  function Members(rows: seq<MemberRow>, setId: int): (r: seq<int>)
    ensures |r| <= |rows|
  {
    if rows == [] then []
    else Members(rows[..|rows| - 1], setId) +
         (if rows[|rows| - 1].setId == setId then [rows[|rows| - 1].memberId] else [])
  }

  /** The membership rows putting each of `ids` into set `setId`. */
  function MemberRows(setId: int, ids: seq<int>): (r: seq<MemberRow>)
    ensures |r| == |ids|
    ensures forall i :: 0 <= i < |ids| ==> r[i] == MemberRow(setId, ids[i])
    ensures forall m :: m in r ==> m.setId == setId
  {
    seq(|ids|, i requires 0 <= i < |ids| => MemberRow(setId, ids[i]))
  }

  lemma {:induction false} MembersAppend(rows: seq<MemberRow>, more: seq<MemberRow>, setId: int)
    ensures Members(rows + more, setId) == Members(rows, setId) + Members(more, setId)
    decreases |more|
  {
    if more == [] {
      assert rows + more == rows;
    } else {
      var front := more[..|more| - 1];
      assert (rows + more)[..|rows + more| - 1] == rows + front;
      MembersAppend(rows, front, setId);
    }
  }

  /** Rows for one set list exactly the given ids as that set's members. */
  lemma {:induction false} MembersOfMemberRows(setId: int, ids: seq<int>)
    ensures Members(MemberRows(setId, ids), setId) == ids
    decreases |ids|
  {
    if ids != [] {
      var front := ids[..|ids| - 1];
      assert MemberRows(setId, ids)[..|ids| - 1] == MemberRows(setId, front);
      MembersOfMemberRows(setId, front);
    }
  }

  /** Rows for one set add no members to any other set. */
  lemma {:induction false} MembersOfOtherSet(setId: int, ids: seq<int>, other: int)
    requires other != setId
    ensures Members(MemberRows(setId, ids), other) == []
    decreases |ids|
  {
    if ids != [] {
      var front := ids[..|ids| - 1];
      assert MemberRows(setId, ids)[..|ids| - 1] == MemberRows(setId, front);
      MembersOfOtherSet(setId, front, other);
    }
  }

  /** A set none of whose rows exist has no members. */
  lemma {:induction false} MembersOfUnusedSet(rows: seq<MemberRow>, setId: int)
    requires forall m :: m in rows ==> m.setId < setId
    ensures Members(rows, setId) == []
    decreases |rows|
  {
    if rows != [] {
      assert rows[|rows| - 1] in rows;
      MembersOfUnusedSet(rows[..|rows| - 1], setId);
    }
  }
}
